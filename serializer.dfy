/** Conversion between the flat action records of the configuration
    document (`{action, ...fields}`) and the editor's action entries. */
module Serializer {
  import opened Json
  import opened Schema
  import opened Entries

  /** One entry per record, in record order. */
  function CreateAll(records: seq<Value>): (r: seq<ActionEntry>)
    ensures |r| == |records|
    ensures forall i | 0 <= i < |records| :: r[i] == CreateEntry(records[i])
  {
    if records == [] then [] else [CreateEntry(records[0])] + CreateAll(records[1..])
  }

  lemma CreateAllSnoc(records: seq<Value>, x: Value)
    ensures CreateAll(records + [x]) == CreateAll(records) + [CreateEntry(x)]
  {
    var a := CreateAll(records + [x]);
    var b := CreateAll(records) + [CreateEntry(x)];
    assert |a| == |b|;
    forall i | 0 <= i < |a| ensures a[i] == b[i] {
      assert (records + [x])[i] == if i < |records| then records[i] else x;
    }
  }

  /** The entries a stored action list yields: one per record of an array,
      none for anything else. */
  function Deserialize(values: Value): (r: seq<ActionEntry>)
    ensures values.Arr? ==> |r| == |values.items|
    ensures !values.Arr? ==> r == []
    ensures forall i | 0 <= i < |r| :: WellFormed(r[i])
  {
    if values.Arr? then CreateAll(values.items) else []
  }

  /** The list as the editor shows it after a load: never empty, a default
      TurnOn entry standing in for an empty list. */
  function LoadedList(values: Value): (r: seq<ActionEntry>)
    ensures r != []
  {
    var entries := Deserialize(values);
    if entries == [] then [CreateEntry(Undefined)] else entries
  }

  /** The padding rule: a list that loads empty shows one default row. */
  lemma LoadedListCases(values: Value)
    ensures Deserialize(values) == [] ==>
              LoadedList(values) == [ActionEntry(Str("TurnOn"), map["device" := Str("")])]
    ensures Deserialize(values) != [] ==> LoadedList(values) == Deserialize(values)
  {
    DefaultEntry();
  }

  /** `{action: row.action, ...row.params}` */
  function FlatRow(e: ActionEntry): (r: Value)
    ensures r.Obj? && r.props.Keys == {"action"} + e.params.Keys
    ensures forall k | k in e.params :: r.props[k] == e.params[k]
    ensures "action" !in e.params ==> r.props["action"] == e.action
  {
    Obj(map["action" := e.action] + e.params)
  }

  /** `flattenActions`: one flat record per entry, in list order. */
  function Flatten(entries: seq<ActionEntry>): (r: seq<Value>)
    ensures |r| == |entries|
    ensures forall i | 0 <= i < |entries| :: r[i] == FlatRow(entries[i])
  {
    if entries == [] then [] else [FlatRow(entries[0])] + Flatten(entries[1..])
  }

  /** A stored record the editor reproduces exactly: an object whose truthy
      `action` is joined by exactly the fields of that tag's schema, none of
      them null or undefined. */
  predicate Canonical(r: Value) {
    && r.Obj?
    && "action" in r.props
    && Truthy(r.props["action"])
    && r.props.Keys == {"action"} + Keys(SpecsOf(r.props["action"]))
    && forall k | k in r.props && k != "action" :: !Nullish(r.props[k])
  }

  lemma RecordRoundTrip(r: Value)
    requires Canonical(r)
    ensures FlatRow(CreateEntry(r)) == r
  {
    var tag := r.props["action"];
    var rest := r.props - {"action"};
    RecordFields(r);
    assert CreateEntry(r) == ActionEntry(tag, rest);
    assert map["action" := tag] + rest == r.props;
  }

  /** A canonical record's fields, its properties but `action`, are
      exactly the params its entry gets. */
  lemma RecordFields(r: Value)
    requires Canonical(r)
    ensures CreateEntry(r).action == r.props["action"]
    ensures CreateEntry(r).params == r.props - {"action"}
  {
    var specs := SpecsOf(r.props["action"]);
    var rest := r.props - {"action"};
    var p := Params(specs, rest);
    assert rest.Keys == Keys(specs);
    forall k | k in p ensures p[k] == rest[k] {
      var j :| 0 <= j < |specs| && specs[j].key == k;
      ParamsAt(specs, rest, j);
    }
    assert p == rest;
  }

  lemma EntryRoundTrip(e: ActionEntry)
    requires WellFormed(e)
    ensures CreateEntry(FlatRow(e)) == e
  {
    var specs := SpecsOf(e.action);
    var s := map["action" := e.action] + e.params;
    assert "action" !in e.params;
    assert Get(s, "action") == e.action;
    assert s - {"action"} == e.params;
    ParamsFixpoint(specs, e.params);
  }

  /** Loading stored records and flattening them again reproduces them,
      record for record, when every record is canonical. */
  lemma {:induction false} FlattenAfterLoad(records: seq<Value>)
    requires forall i | 0 <= i < |records| :: Canonical(records[i])
    ensures Flatten(CreateAll(records)) == records
  {
    if records != [] {
      RecordRoundTrip(records[0]);
      FlattenAfterLoad(records[1..]);
      assert CreateAll(records)[1..] == CreateAll(records[1..]);
    }
  }

  /** Saving the editor's entries and loading the result gives the same
      entries back, since every entry keeps the invariant. */
  lemma {:induction false} LoadAfterFlatten(entries: seq<ActionEntry>)
    requires forall i | 0 <= i < |entries| :: WellFormed(entries[i])
    ensures CreateAll(Flatten(entries)) == entries
  {
    if entries != [] {
      EntryRoundTrip(entries[0]);
      LoadAfterFlatten(entries[1..]);
      assert Flatten(entries)[1..] == Flatten(entries[1..]);
    }
  }

  /** What a load followed by a save stores for one action list: the same
      records when there were some (all canonical), and a single TurnOn
      record with an empty device when there were none. */
  lemma StoredAfterLoad(records: seq<Value>)
    requires forall i | 0 <= i < |records| :: Canonical(records[i])
    ensures records != [] ==> Flatten(LoadedList(Arr(records))) == records
    ensures records == [] ==>
              Flatten(LoadedList(Arr(records)))
                == [Obj(map["action" := Str("TurnOn"), "device" := Str("")])]
  {
    if records != [] {
      FlattenAfterLoad(records);
      assert LoadedList(Arr(records)) == CreateAll(records);
    } else {
      LoadedListCases(Arr(records));
      var e := ActionEntry(Str("TurnOn"), map["device" := Str("")]);
      assert Flatten([e]) == [FlatRow(e)];
      assert map["action" := Str("TurnOn")] + map["device" := Str("")]
          == map["action" := Str("TurnOn"), "device" := Str("")];
    }
  }
}
