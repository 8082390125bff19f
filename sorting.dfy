/** `Array.prototype.sort` with a comparator, for the option lists of the
    room search. */
module Sorting {

  /** What `sort` needs of its comparator to give a defined result: every
      two strings compare, and the comparison is transitive. */
  ghost predicate TotalPreorder(le: (string, string) -> bool) {
    && (forall a, b :: le(a, b) || le(b, a))
    && (forall a, b, c :: le(a, b) && le(b, c) ==> le(a, c))
  }

  ghost predicate SortedBy(le: (string, string) -> bool, s: seq<string>) {
    forall i, j | 0 <= i < j < |s| :: le(s[i], s[j])
  }

  /** Inserts `x` before the first element it is not after. */
  function Insert(le: (string, string) -> bool, x: string, s: seq<string>): seq<string> {
    if s == [] then [x]
    else if le(x, s[0]) then [x] + s
    else [s[0]] + Insert(le, x, s[1..])
  }

  /** A stable sort: elements that compare equal keep their order
      (`SortStable`). */
  function Sort(le: (string, string) -> bool, s: seq<string>): seq<string> {
    if s == [] then [] else Insert(le, s[0], Sort(le, s[1..]))
  }

  lemma {:induction false} InsertPermutes(le: (string, string) -> bool, x: string, s: seq<string>)
    ensures multiset(Insert(le, x, s)) == multiset(s) + multiset{x}
  {
    if s != [] && !le(x, s[0]) {
      InsertPermutes(le, x, s[1..]);
      assert s == [s[0]] + s[1..];
    }
  }

  lemma {:induction false} InsertSorted(le: (string, string) -> bool, x: string, s: seq<string>)
    requires TotalPreorder(le) && SortedBy(le, s)
    ensures SortedBy(le, Insert(le, x, s))
  {
    if s != [] && !le(x, s[0]) {
      InsertSorted(le, x, s[1..]);
      InsertPermutes(le, x, s[1..]);
      var r := Insert(le, x, s[1..]);
      forall j | 0 <= j < |r| ensures le(s[0], r[j]) {
        assert r[j] in multiset(r);
        if r[j] != x {
          assert r[j] in multiset(s[1..]);
          var k :| 0 <= k < |s[1..]| && s[1..][k] == r[j];
          assert s[k + 1] == r[j];
        }
      }
    }
  }

  /** The sort gives a sorted permutation of its input. */
  lemma {:induction false} SortCorrect(le: (string, string) -> bool, s: seq<string>)
    requires TotalPreorder(le)
    ensures SortedBy(le, Sort(le, s))
    ensures multiset(Sort(le, s)) == multiset(s)
  {
    if s != [] {
      SortCorrect(le, s[1..]);
      InsertSorted(le, s[0], Sort(le, s[1..]));
      InsertPermutes(le, s[0], Sort(le, s[1..]));
      assert s == [s[0]] + s[1..];
    }
  }

  /** `a` and `b` compare equal. */
  ghost predicate Tied(le: (string, string) -> bool, a: string, b: string) {
    le(a, b) && le(b, a)
  }

  /** The elements of `s` that compare equal to `x`, in their order in `s`. */
  ghost function Ties(le: (string, string) -> bool, x: string, s: seq<string>): seq<string> {
    if s == [] then [] else (if Tied(le, s[0], x) then [s[0]] else []) + Ties(le, x, s[1..])
  }

  /** Inserting `y` puts it after elements it does not go before only; when
      none of those ties with `x`, among the elements tied with `x` it
      comes first. */
  lemma {:induction false} InsertTies(le: (string, string) -> bool, x: string, y: string, t: seq<string>)
    requires Tied(le, y, x) ==> forall e | e in t && !le(y, e) :: !Tied(le, e, x)
    ensures Ties(le, x, Insert(le, y, t)) == (if Tied(le, y, x) then [y] else []) + Ties(le, x, t)
  {
    var mine := if Tied(le, y, x) then [y] else [];
    if t != [] && !le(y, t[0]) {
      var head := if Tied(le, t[0], x) then [t[0]] else [];
      var rest := Insert(le, y, t[1..]);
      assert Tied(le, y, x) ==> head == [];
      InsertTies(le, x, y, t[1..]);
      assert ([t[0]] + rest)[1..] == rest;
      calc {
        Ties(le, x, Insert(le, y, t));
        Ties(le, x, [t[0]] + rest);
        head + Ties(le, x, rest);
        head + (mine + Ties(le, x, t[1..]));
        { assert head == [] || mine == []; }
        mine + (head + Ties(le, x, t[1..]));
      }
    } else if t != [] {
      assert ([y] + t)[1..] == t;
    }
  }

  /** An element that `y` does not go before ties with nothing `y` ties with. */
  lemma NotTiedBefore(le: (string, string) -> bool, x: string, y: string, e: string)
    requires TotalPreorder(le) && Tied(le, y, x) && !le(y, e)
    ensures !Tied(le, e, x)
  {
  }

  /** The sort is stable: for every `x`, the elements tied with `x` come
      out in the order they went in. */
  lemma {:induction false} SortStable(le: (string, string) -> bool, x: string, s: seq<string>)
    requires TotalPreorder(le)
    ensures Ties(le, x, Sort(le, s)) == Ties(le, x, s)
  {
    if s != [] {
      SortStable(le, x, s[1..]);
      forall e | e in Sort(le, s[1..]) && !le(s[0], e) && Tied(le, s[0], x) ensures !Tied(le, e, x) {
        NotTiedBefore(le, x, s[0], e);
      }
      InsertTies(le, x, s[0], Sort(le, s[1..]));
    }
  }
}
