/** The JavaScript string operations the room search uses: `trim`,
    `toLowerCase` and `includes`. */
module JsString {

  /** The ECMAScript WhiteSpace and LineTerminator code points, which
      `trim` removes from both ends. */
  predicate IsWhiteSpace(c: char) {
    || c == '\t' || c == '\n' || c == '\U{000B}' || c == '\U{000C}' || c == '\r'
    || c == ' ' || c == '\U{00A0}' || c == '\U{1680}'
    || ('\U{2000}' <= c <= '\U{200A}')
    || c == '\U{2028}' || c == '\U{2029}' || c == '\U{202F}' || c == '\U{205F}'
    || c == '\U{3000}' || c == '\U{FEFF}'
  }

  function TrimStart(s: string): string {
    if s != [] && IsWhiteSpace(s[0]) then TrimStart(s[1..]) else s
  }

  function TrimEnd(s: string): string {
    if s != [] && IsWhiteSpace(s[|s| - 1]) then TrimEnd(s[..|s| - 1]) else s
  }

  /** `s.trim()` */
  function Trim(s: string): string {
    TrimEnd(TrimStart(s))
  }

  /** Neither end of `s` is white space. */
  predicate Trimmed(s: string) {
    s == [] || (!IsWhiteSpace(s[0]) && !IsWhiteSpace(s[|s| - 1]))
  }

  function LowerChar(c: char): char {
    if 'A' <= c <= 'Z' then (c as int + 32) as char else c
  }

  /** `s.toLowerCase()` on the letters A to Z. */
  function Lower(s: string): (r: string)
    ensures |r| == |s|
    ensures forall i | 0 <= i < |s| :: r[i] == LowerChar(s[i])
  {
    if s == [] then [] else [LowerChar(s[0])] + Lower(s[1..])
  }

  /** `h.includes(q)`: `q` occurs in `h` at some position. */
  predicate Includes(h: string, q: string) {
    q <= h || (h != [] && Includes(h[1..], q))
  }

  lemma {:induction false} TrimStartShape(s: string)
    ensures TrimStart(s) == [] || !IsWhiteSpace(TrimStart(s)[0])
    ensures |TrimStart(s)| <= |s| && TrimStart(s) == s[|s| - |TrimStart(s)|..]
  {
    if s != [] && IsWhiteSpace(s[0]) {
      TrimStartShape(s[1..]);
    }
  }

  lemma {:induction false} TrimEndShape(s: string)
    ensures TrimEnd(s) == [] || !IsWhiteSpace(TrimEnd(s)[|TrimEnd(s)| - 1])
    ensures |TrimEnd(s)| <= |s| && TrimEnd(s) == s[..|TrimEnd(s)|]
  {
    if s != [] && IsWhiteSpace(s[|s| - 1]) {
      var t := s[..|s| - 1];
      TrimEndShape(t);
      assert t[..|TrimEnd(t)|] == s[..|TrimEnd(t)|];
    }
  }

  /** The result of `trim` has no white space at either end. */
  lemma TrimIsTrimmed(s: string)
    ensures Trimmed(Trim(s))
  {
    var t := TrimStart(s);
    TrimStartShape(s);
    TrimEndShape(t);
    if TrimEnd(t) != [] {
      assert TrimEnd(t)[0] == t[0];
    }
  }

  /** `trim` leaves a string without white space at its ends unchanged. */
  lemma TrimOfTrimmed(s: string)
    requires Trimmed(s)
    ensures Trim(s) == s
  {
  }

  /** Lowering the letters A to Z creates and removes no white space. */
  lemma LowerKeepsTrimmed(s: string)
    requires Trimmed(s)
    ensures Trimmed(Lower(s))
  {
  }

  lemma LowerIdempotent(s: string)
    ensures Lower(Lower(s)) == Lower(s)
  {
  }

  /** A string occurs in any string that has it as an infix. */
  lemma {:induction false} IncludesInfix(a: string, q: string, b: string)
    ensures Includes(a + q + b, q)
  {
    if a == [] {
      assert a + q + b == q + b;
    } else {
      assert (a + q + b)[1..] == a[1..] + q + b;
      IncludesInfix(a[1..], q, b);
    }
  }

  /** Conversely, `includes` holds only where the string occurs as an infix. */
  lemma {:induction false} IncludesOnlyInfix(h: string, q: string)
    requires Includes(h, q)
    ensures exists a, b :: h == a + q + b
    decreases |h|
  {
    if q <= h {
      assert h == [] + q + h[|q|..];
    } else {
      IncludesOnlyInfix(h[1..], q);
      var a, b :| h[1..] == a + q + b;
      assert h == [h[0]] + a + q + b;
    }
  }
}
