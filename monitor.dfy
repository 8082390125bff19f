/** The room monitor: the loaded room documents, the option lists of its
    three filters, and the search that narrows the rooms shown. */
module MonitorPage {
  import opened Json
  import opened JsString
  import opened Sorting

  /** `norm(v)`: `String(v ?? '').trim().toLowerCase()` */
  function Norm(v: Value): string
    requires NoDates(v)
  {
    Lower(Trim(ToStr(Coalesce(v, Str("")))))
  }

  /** A normalised string has no white space at its ends and no capital
      letter A to Z; null and undefined normalise to "". Normalising again
      changes nothing. */
  lemma NormIdempotent(v: Value)
    requires NoDates(v)
    ensures Nullish(v) ==> Norm(v) == ""
    ensures Trimmed(Norm(v))
    ensures forall i | 0 <= i < |Norm(v)| :: !('A' <= Norm(v)[i] <= 'Z')
    ensures Norm(Str(Norm(v))) == Norm(v)
  {
    var s := ToStr(Coalesce(v, Str("")));
    var t := Trim(s);
    var n := Lower(t);
    assert Norm(v) == n;
    if Nullish(v) {
      assert s == "";
    }
    TrimIsTrimmed(s);
    LowerKeepsTrimmed(t);
    LowerHasNoCapitals(t);
    TrimOfTrimmed(n);
    LowerIdempotent(t);
    assert ToStr(Coalesce(Str(n), Str(""))) == n;
  }

  lemma LowerHasNoCapitals(s: string)
    ensures forall i | 0 <= i < |Lower(s)| :: !('A' <= Lower(s)[i] <= 'Z')
  {
    forall i | 0 <= i < |Lower(s)| ensures !('A' <= Lower(s)[i] <= 'Z') {
      assert Lower(s)[i] == LowerChar(s[i]);
    }
  }

  /** `r?.config?.[key]`; `(r?.config ?? {})[key]` reads the same. */
  function ConfigField(room: Value, key: string): (r: Value)
    ensures NoDates(room) ==> NoDates(r)
    ensures !room.Obj? ==> r == Undefined
  {
    var config := Prop(room, "config");
    assert NoDates(room) ==> NoDates(config);
    Prop(config, key)
  }

  predicate AllJson(rooms: seq<Value>) {
    forall i | 0 <= i < |rooms| :: NoDates(rooms[i])
  }

  /** The option text a room adds to the list for `key`: `String(v)` when
      its value `v` is truthy. */
  function OptionText(room: Value, key: string): Option<string>
    requires NoDates(room)
  {
    var v := ConfigField(room, key);
    if Truthy(v) then Some(ToStr(v)) else None
  }

  /** Each element occurs once. */
  predicate Distinct(s: seq<string>) {
    forall x | x in multiset(s) :: multiset(s)[x] == 1
  }

  /** The option texts of the rooms for `key`, each kept where it is first
      seen: the order in which the loop adds them to its `Set`. */
  function FirstSeen(rooms: seq<Value>, key: string): (r: seq<string>)
    requires AllJson(rooms)
    ensures |r| <= |rooms|
  {
    if rooms == [] then []
    else
      var n := |rooms| - 1;
      var prev := FirstSeen(rooms[..n], key);
      match OptionText(rooms[n], key)
      case Some(t) => if t in prev then prev else prev + [t]
      case None => prev
  }

  /** The first-seen texts are distinct, and they are exactly the option
      texts of the rooms. */
  lemma {:induction false} FirstSeenMembers(rooms: seq<Value>, key: string)
    requires AllJson(rooms)
    ensures Distinct(FirstSeen(rooms, key))
    ensures forall s :: s in FirstSeen(rooms, key) <==> exists i | 0 <= i < |rooms| :: OptionText(rooms[i], key) == Some(s)
    decreases |rooms|
  {
    if rooms != [] {
      var n := |rooms| - 1;
      var init := rooms[..n];
      var prev := FirstSeen(init, key);
      FirstSeenMembers(init, key);
      assert forall i | 0 <= i < n :: init[i] == rooms[i];
      forall s ensures s in FirstSeen(rooms, key) <==> exists i | 0 <= i < |rooms| :: OptionText(rooms[i], key) == Some(s) {
        if OptionText(rooms[n], key) == Some(s) {
          assert s in FirstSeen(rooms, key);
        }
      }
      match OptionText(rooms[n], key)
      case Some(t) =>
        if t !in prev {
          assert multiset(prev + [t]) == multiset(prev) + multiset{t};
          assert t !in multiset(prev);
        }
      case None =>
    }
  }

  /** `campuses`, `buildings` and `roomTypes` (with `key` `campus`,
      `building`, `roomType`): the truthy values of that field across the
      rooms, as strings, once each, in first-seen order sorted by `le`. */
  method OptionList(rooms: seq<Value>, key: string, le: (string, string) -> bool) returns (r: seq<string>)
    requires AllJson(rooms)
    requires TotalPreorder(le)
    ensures r == Sort(le, FirstSeen(rooms, key))
    ensures Distinct(r)
    ensures SortedBy(le, r)
    ensures forall s :: s in r <==> exists i | 0 <= i < |rooms| :: OptionText(rooms[i], key) == Some(s)
  {
    var seen: seq<string> := [];
    for i := 0 to |rooms|
      invariant seen == FirstSeen(rooms[..i], key)
    {
      assert rooms[..i + 1][..i] == rooms[..i];
      var v := ConfigField(rooms[i], key);
      if Truthy(v) {
        var text := ToStr(v);
        if text !in seen {
          seen := seen + [text];
        }
      }
    }
    assert rooms[..|rooms|] == rooms;
    FirstSeenMembers(rooms, key);
    SortCorrect(le, seen);
    r := Sort(le, seen);
    assert forall s :: s in r <==> s in multiset(r);
    assert forall s :: s in seen <==> s in multiset(seen);
  }

  /** The search test for one room, with the query and filters already
      normalised. */
  predicate Keep(room: Value, q: string, campus: string, building: string, roomType: string)
    requires NoDates(room)
  {
    && (campus == "" || Norm(ConfigField(room, "campus")) == campus)
    && (building == "" || Norm(ConfigField(room, "building")) == building)
    && (roomType == "" || Norm(ConfigField(room, "roomType")) == roomType)
    && (q == "" || Includes(Haystack(room), q))
  }

  /** The text the query is searched in: the five normalised fields joined
      by single spaces. */
  function Haystack(room: Value): string
    requires NoDates(room)
  {
    Norm(ConfigField(room, "campus")) + " " + Norm(ConfigField(room, "building")) + " "
      + Norm(ConfigField(room, "room")) + " " + Norm(ConfigField(room, "ip")) + " "
      + Norm(ConfigField(room, "roomType"))
  }

  function Filter(rooms: seq<Value>, q: string, campus: string, building: string, roomType: string): (r: seq<Value>)
    requires AllJson(rooms)
    ensures |r| <= |rooms|
    ensures forall x | x in r :: x in rooms && NoDates(x) && Keep(x, q, campus, building, roomType)
  {
    if rooms == [] then []
    else
      (if Keep(rooms[0], q, campus, building, roomType) then [rooms[0]] else [])
        + Filter(rooms[1..], q, campus, building, roomType)
  }

  /** `filteredRooms` */
  function FilteredRooms(rooms: seq<Value>, searchText: string, campusFilter: string,
                         buildingFilter: string, roomTypeFilter: string): seq<Value>
    requires AllJson(rooms)
  {
    Filter(rooms, Norm(Str(searchText)), Norm(Str(campusFilter)), Norm(Str(buildingFilter)),
           Norm(Str(roomTypeFilter)))
  }

  /** `a` is `b` with some elements left out, the rest in their order. */
  predicate SubsequenceOf(a: seq<Value>, b: seq<Value>) {
    if a == [] then true
    else if b == [] then false
    else if a[0] == b[0] then SubsequenceOf(a[1..], b[1..])
    else SubsequenceOf(a, b[1..])
  }

  /** The rooms shown are the rooms that pass the search, in the order they
      were loaded. */
  lemma {:induction false} FilterSubsequence(rooms: seq<Value>, q: string, campus: string,
                                             building: string, roomType: string)
    requires AllJson(rooms)
    ensures SubsequenceOf(Filter(rooms, q, campus, building, roomType), rooms)
    ensures forall x :: x in Filter(rooms, q, campus, building, roomType) <==>
              x in rooms && NoDates(x) && Keep(x, q, campus, building, roomType)
  {
    if rooms != [] {
      var rest := Filter(rooms[1..], q, campus, building, roomType);
      FilterSubsequence(rooms[1..], q, campus, building, roomType);
      if Keep(rooms[0], q, campus, building, roomType) {
        assert Filter(rooms, q, campus, building, roomType) == [rooms[0]] + rest;
        assert ([rooms[0]] + rest)[1..] == rest;
      } else {
        assert Filter(rooms, q, campus, building, roomType) == rest;
        SkipHead(rest, rooms);
      }
      forall x ensures x in rooms <==> x == rooms[0] || x in rooms[1..] {
        assert rooms == [rooms[0]] + rooms[1..];
      }
    }
  }

  /** Every room that passes the search is shown as often as it occurs in
      the loaded list, and no other room is shown. */
  lemma {:induction false} FilterCounts(rooms: seq<Value>, q: string, campus: string,
                                        building: string, roomType: string)
    requires AllJson(rooms)
    ensures forall x :: multiset(Filter(rooms, q, campus, building, roomType))[x] ==
              if NoDates(x) && Keep(x, q, campus, building, roomType) then multiset(rooms)[x] else 0
  {
    if rooms != [] {
      var tail := rooms[1..];
      FilterCounts(tail, q, campus, building, roomType);
      var kept := Keep(rooms[0], q, campus, building, roomType);
      var head := if kept then [rooms[0]] else [];
      var rest := Filter(tail, q, campus, building, roomType);
      assert Filter(rooms, q, campus, building, roomType) == head + rest;
      assert rooms == [rooms[0]] + tail;
      assert multiset(rooms) == multiset{rooms[0]} + multiset(tail);
      assert multiset(head + rest) == multiset(head) + multiset(rest);
      forall x ensures multiset(head + rest)[x] ==
                       if NoDates(x) && Keep(x, q, campus, building, roomType) then multiset(rooms)[x] else 0
      {
        if x == rooms[0] {
          assert multiset(head)[x] == if kept then 1 else 0;
        } else {
          assert multiset(head)[x] == 0;
        }
      }
    }
  }

  /** The filter works room by room: filtering two runs of rooms is
      filtering each and joining the results. */
  lemma {:induction false} FilterAppend(a: seq<Value>, b: seq<Value>, q: string, campus: string,
                                        building: string, roomType: string)
    requires AllJson(a) && AllJson(b)
    ensures AllJson(a + b)
    ensures Filter(a + b, q, campus, building, roomType)
         == Filter(a, q, campus, building, roomType) + Filter(b, q, campus, building, roomType)
  {
    assert forall i | 0 <= i < |a + b| :: (a + b)[i] == if i < |a| then a[i] else b[i - |a|];
    if a != [] {
      assert (a + b)[1..] == a[1..] + b;
      FilterAppend(a[1..], b, q, campus, building, roomType);
    } else {
      assert a + b == b;
    }
  }

  /** A subsequence of the tail of `b` is a subsequence of `b`. */
  lemma {:induction false} SkipHead(a: seq<Value>, b: seq<Value>)
    requires b != [] && SubsequenceOf(a, b[1..])
    ensures SubsequenceOf(a, b)
    decreases |a| + |b|, 1
  {
    if a != [] && a[0] == b[0] {
      DropHead(a, b[1..]);
    }
  }

  /** Leaving out the first element of a subsequence keeps a subsequence. */
  lemma {:induction false} DropHead(a: seq<Value>, b: seq<Value>)
    requires a != [] && SubsequenceOf(a, b)
    ensures SubsequenceOf(a[1..], b)
    decreases |a| + |b|, 0
  {
    if a[0] == b[0] {
      SkipHead(a[1..], b);
    } else {
      DropHead(a, b[1..]);
      SkipHead(a[1..], b);
    }
  }

  /** With the query and every filter empty (after normalising), every
      room is shown. */
  lemma {:induction false} NoFilterKeepsAll(rooms: seq<Value>, searchText: string, campusFilter: string,
                                            buildingFilter: string, roomTypeFilter: string)
    requires AllJson(rooms)
    requires Norm(Str(searchText)) == "" && Norm(Str(campusFilter)) == ""
    requires Norm(Str(buildingFilter)) == "" && Norm(Str(roomTypeFilter)) == ""
    ensures FilteredRooms(rooms, searchText, campusFilter, buildingFilter, roomTypeFilter) == rooms
  {
    KeepAllFilter(rooms);
  }

  lemma {:induction false} KeepAllFilter(rooms: seq<Value>)
    requires AllJson(rooms)
    ensures Filter(rooms, "", "", "", "") == rooms
  {
    if rooms != [] {
      KeepAllFilter(rooms[1..]);
    }
  }

  /** A shown room matches every non-empty filter on its normalised field,
      and a room that matches the filters is shown exactly when the query
      is empty or occurs in its haystack. */
  lemma FilterSemantics(rooms: seq<Value>, searchText: string, campusFilter: string,
                        buildingFilter: string, roomTypeFilter: string, room: Value)
    requires AllJson(rooms) && room in rooms
    ensures NoDates(room) && NoDates(ConfigField(room, "campus"))
    ensures NoDates(ConfigField(room, "building")) && NoDates(ConfigField(room, "roomType"))
    ensures var shown := FilteredRooms(rooms, searchText, campusFilter, buildingFilter, roomTypeFilter);
            room in shown ==>
              && (Norm(Str(campusFilter)) != "" ==> Norm(ConfigField(room, "campus")) == Norm(Str(campusFilter)))
              && (Norm(Str(buildingFilter)) != "" ==> Norm(ConfigField(room, "building")) == Norm(Str(buildingFilter)))
              && (Norm(Str(roomTypeFilter)) != "" ==> Norm(ConfigField(room, "roomType")) == Norm(Str(roomTypeFilter)))
    ensures var shown := FilteredRooms(rooms, searchText, campusFilter, buildingFilter, roomTypeFilter);
            Keep(room, "", Norm(Str(campusFilter)), Norm(Str(buildingFilter)), Norm(Str(roomTypeFilter))) ==>
              (room in shown <==>
                 Norm(Str(searchText)) == "" || Includes(Haystack(room), Norm(Str(searchText))))
  {
    var i :| 0 <= i < |rooms| && rooms[i] == room;
    FilterSubsequence(rooms, Norm(Str(searchText)), Norm(Str(campusFilter)), Norm(Str(buildingFilter)),
                      Norm(Str(roomTypeFilter)));
  }

  /** The query is matched against the joined fields, so it may span two
      of them: a room whose normalised campus is `c` and building is `b`
      matches the query `c b`. */
  lemma QuerySpansFields(room: Value)
    requires NoDates(room)
    ensures Includes(Haystack(room), Norm(ConfigField(room, "campus")) + " " + Norm(ConfigField(room, "building")))
  {
    JoinedPrefix(Norm(ConfigField(room, "campus")), Norm(ConfigField(room, "building")),
                 Norm(ConfigField(room, "room")), Norm(ConfigField(room, "ip")),
                 Norm(ConfigField(room, "roomType")));
  }

  lemma JoinedPrefix(c: string, b: string, r: string, ip: string, t: string)
    ensures c + " " + b <= c + " " + b + " " + r + " " + ip + " " + t
  {
    var h1 := c + " " + b;
    var h2 := h1 + " " + r;
    var h3 := h2 + " " + ip;
    assert h1 <= h2 <= h3 <= h3 + " " + t;
  }

  /** `rooms.set(Array.isArray(data) ? data : [])` */
  function RoomsOf(data: Value): (r: seq<Value>)
    requires NoDates(data)
    ensures AllJson(r)
  {
    if data.Arr? then data.items else []
  }

  class Monitor {
    var rooms: seq<Value>
    var isLoading: bool
    var errorMessage: Value
    var searchText: string
    var campusFilter: string
    var buildingFilter: string
    var roomTypeFilter: string

    ghost predicate Valid()
      reads this
    {
      AllJson(rooms)
    }

    constructor()
      ensures Valid() && rooms == [] && !isLoading && errorMessage == Str("")
      ensures searchText == "" && campusFilter == "" && buildingFilter == "" && roomTypeFilter == ""
      ensures Shown() == []
    {
      rooms := [];
      isLoading := false;
      errorMessage := Str("");
      searchText, campusFilter, buildingFilter, roomTypeFilter := "", "", "", "";
    }

    /** The rooms the page shows for the current search: loaded rooms
        only, and all of them while the search and the filters are empty. */
    function Shown(): (r: seq<Value>)
      reads this
      requires Valid()
      ensures forall x | x in r :: x in rooms
      ensures searchText == "" && campusFilter == "" && buildingFilter == "" && roomTypeFilter == "" ==>
                r == rooms
    {
      if searchText == "" && campusFilter == "" && buildingFilter == "" && roomTypeFilter == "" then
        KeepAllFilter(rooms);
        FilteredRooms(rooms, searchText, campusFilter, buildingFilter, roomTypeFilter)
      else
        FilteredRooms(rooms, searchText, campusFilter, buildingFilter, roomTypeFilter)
    }

    /** `loadRooms` with the session token: without one the page shows no
        rooms and a message and makes no request; with one it starts the
        request and clears the message. */
    method LoadRooms(token: Option<string>) returns (requested: bool)
      requires Valid()
      modifies this
      ensures Valid()
      ensures requested <==> token.Some? && token.value != ""
      ensures !requested ==>
                rooms == [] && errorMessage == Str("Not logged in. Please login to view rooms.")
                && isLoading == old(isLoading)
      ensures requested ==> isLoading && errorMessage == Str("") && rooms == old(rooms)
      ensures !requested ==> Shown() == []
      ensures searchText == old(searchText) && campusFilter == old(campusFilter)
      ensures buildingFilter == old(buildingFilter) && roomTypeFilter == old(roomTypeFilter)
    {
      if token.None? || token.value == "" {
        errorMessage := Str("Not logged in. Please login to view rooms.");
        rooms := [];
        return false;
      }
      isLoading := true;
      errorMessage := Str("");
      return true;
    }

    /** The request returned `data` (parsed JSON). */
    method RoomsLoaded(data: Value)
      requires Valid() && NoDates(data)
      modifies this
      ensures Valid() && rooms == RoomsOf(data) && !isLoading
      ensures !data.Arr? ==> rooms == []
      ensures errorMessage == old(errorMessage)
      ensures searchText == old(searchText) && campusFilter == old(campusFilter)
      ensures buildingFilter == old(buildingFilter) && roomTypeFilter == old(roomTypeFilter)
    {
      rooms := RoomsOf(data);
      isLoading := false;
    }

    /** The request failed with `err`. */
    method RoomsFailed(err: Value)
      requires Valid()
      modifies this
      ensures Valid() && !isLoading && rooms == old(rooms)
      ensures errorMessage == Or(Prop(Prop(err, "error"), "error"),
                               Or(Prop(Prop(err, "error"), "message"),
                               Or(Prop(err, "message"), Str("Failed to load rooms."))))
      ensures searchText == old(searchText) && campusFilter == old(campusFilter)
      ensures buildingFilter == old(buildingFilter) && roomTypeFilter == old(roomTypeFilter)
    {
      isLoading := false;
      var apiErr := Prop(err, "error");
      errorMessage := Or(Prop(apiErr, "error"), Or(Prop(apiErr, "message"),
                        Or(Prop(err, "message"), Str("Failed to load rooms."))));
    }
  }
}
