/** One editable action of the editor: its kind tag and the values of the
    fields its kind's schema lists, built, rebuilt on a kind change, and
    validated against the registry. */
module Entries {
  import opened Json
  import opened Schema

  /** One row of an action list: the `action` control and the controls of
      its `params` group, by field key. */
  datatype ActionEntry = ActionEntry(action: Value, params: map<string, Value>)

  /** The value a field starts with when the seed has none. */
  function DefaultFor(kind: FieldKind): Value {
    if kind == Number then Null else Str("")
  }

  /** The start value of field `f` given the seed record. */
  function SeedFor(seed: map<string, Value>, f: FieldSpec): Value {
    Coalesce(Get(seed, f.key), DefaultFor(f.kind))
  }

  /** The controls after the loop over `specs` has filled one control per
      spec, left to right. */
  function Params(specs: seq<FieldSpec>, seed: map<string, Value>): (r: map<string, Value>)
    ensures r.Keys == Keys(specs)
    decreases |specs|
  {
    if specs == [] then map[]
    else
      var n := |specs| - 1;
      assert Keys(specs) == Keys(specs[..n]) + {specs[n].key} by {
        assert forall i | 0 <= i < n :: specs[..n][i] == specs[i];
      }
      Params(specs[..n], seed)[specs[n].key := SeedFor(seed, specs[n])]
  }

  lemma {:induction false} ParamsAt(specs: seq<FieldSpec>, seed: map<string, Value>, j: nat)
    requires DistinctKeys(specs) && j < |specs|
    ensures Params(specs, seed)[specs[j].key] == SeedFor(seed, specs[j])
    decreases |specs|
  {
    var n := |specs| - 1;
    var init := specs[..n];
    if j < n {
      assert init[j] == specs[j];
      assert specs[j].key != specs[n].key;
      DistinctKeysPrefix(specs, n);
      ParamsAt(init, seed, j);
    }
  }

  lemma DistinctKeysPrefix(specs: seq<FieldSpec>, n: nat)
    requires DistinctKeys(specs) && n <= |specs|
    ensures DistinctKeys(specs[..n])
  {
    forall a, b | 0 <= a < b < n ensures specs[..n][a].key != specs[..n][b].key {
      assert specs[..n][a] == specs[a] && specs[..n][b] == specs[b];
    }
  }

  /** The params group holds exactly the schema's keys; a seed value that is
      neither null nor undefined is kept as it is (an empty string and 0
      included); a missing or nullish one becomes null for a number field
      and the empty string for a text or select field. */
  lemma ParamsSeeded(specs: seq<FieldSpec>, seed: map<string, Value>)
    requires DistinctKeys(specs)
    ensures Params(specs, seed).Keys == Keys(specs)
    ensures forall j | 0 <= j < |specs| ::
              var v := Params(specs, seed)[specs[j].key];
              && (specs[j].key in seed && !Nullish(seed[specs[j].key]) ==> v == seed[specs[j].key])
              && (specs[j].key !in seed || Nullish(seed[specs[j].key]) ==> v == DefaultFor(specs[j].kind))
  {
    forall j | 0 <= j < |specs| ensures Params(specs, seed)[specs[j].key] == SeedFor(seed, specs[j]) {
      ParamsAt(specs, seed, j);
    }
  }

  /** `buildParamsGroup(type, seed)`: one control per field of the tag's
      schema, filled in schema order. */
  method BuildParamsGroup(tag: Value, seed: map<string, Value>) returns (controls: map<string, Value>)
    ensures controls == Params(SpecsOf(tag), seed)
    ensures controls.Keys == Keys(SpecsOf(tag))
  {
    var fields := SpecsOf(tag);
    controls := map[];
    for i := 0 to |fields|
      invariant controls == Params(fields[..i], seed)
    {
      var f := fields[i];
      var v := Coalesce(Get(seed, f.key), if f.kind == Number then Null else Str(""));
      assert fields[..i + 1][..i] == fields[..i];
      controls := controls[f.key := v];
    }
    assert fields[..|fields|] == fields;
  }

  /** A field value that a rebuild leaves as it is: anything but undefined,
      and for a text or select field anything but null. */
  predicate Settled(v: Value, kind: FieldKind) {
    !v.Undefined? && (kind != Number ==> !v.Null?)
  }

  /** Every field of the schema holds a settled value. */
  predicate Normalised(specs: seq<FieldSpec>, params: map<string, Value>) {
    forall j | 0 <= j < |specs| :: Settled(Get(params, specs[j].key), specs[j].kind)
  }

  /** Rebuilding params that already hold exactly the schema's keys, each
      with a settled value, gives them back unchanged. */
  lemma ParamsFixpoint(specs: seq<FieldSpec>, params: map<string, Value>)
    requires DistinctKeys(specs) && params.Keys == Keys(specs)
    requires Normalised(specs, params)
    ensures Params(specs, params) == params
  {
    var p := Params(specs, params);
    forall key | key in p ensures p[key] == params[key] {
      var j :| 0 <= j < |specs| && specs[j].key == key;
      ParamsAt(specs, params, j);
    }
  }

  /** The entry invariant: the tag is set, the params are exactly the keys
      of the tag's schema, and each holds a settled value. */
  predicate WellFormed(e: ActionEntry) {
    && Truthy(e.action)
    && e.params.Keys == Keys(SpecsOf(e.action))
    && Normalised(SpecsOf(e.action), e.params)
  }

  lemma {:induction false} ParamsNormalised(specs: seq<FieldSpec>, seed: map<string, Value>)
    requires DistinctKeys(specs)
    ensures Normalised(specs, Params(specs, seed))
  {
    forall j | 0 <= j < |specs| ensures Settled(Get(Params(specs, seed), specs[j].key), specs[j].kind) {
      ParamsAt(specs, seed, j);
    }
  }

  /** `createActionGroup(seed)`: the tag is `seed.action` when truthy and
      TurnOn otherwise; the params are built from the seed with its
      `action` property taken out. */
  function CreateEntry(seed: Value): (e: ActionEntry)
    ensures WellFormed(e)
    ensures "action" !in e.params
  {
    var s := Record(seed);
    var tag := Or(Get(s, "action"), Str("TurnOn"));
    ParamsNormalised(SpecsOf(tag), s - {"action"});
    ActionEntry(tag, Params(SpecsOf(tag), s - {"action"}))
  }

  method CreateActionGroup(seed: Value) returns (e: ActionEntry)
    ensures e == CreateEntry(seed)
    ensures WellFormed(e)
  {
    var s := Record(seed);
    var tag := if Truthy(Get(s, "action")) then Get(s, "action") else Str("TurnOn");
    var params := BuildParamsGroup(tag, s - {"action"});
    e := ActionEntry(tag, params);
  }

  /** A created entry keeps the invariant; its tag is the seed's truthy
      `action` or TurnOn; each field of its schema is seeded from the
      seed's own property of that name, and `action` is never a field. */
  lemma CreateEntryShape(seed: Value)
    ensures WellFormed(CreateEntry(seed))
    ensures Normalised(SpecsOf(CreateEntry(seed).action), CreateEntry(seed).params)
    ensures CreateEntry(seed).action ==
              if Truthy(Prop(seed, "action")) then Prop(seed, "action") else Str("TurnOn")
    ensures "action" !in CreateEntry(seed).params
    ensures forall f | f in SpecsOf(CreateEntry(seed).action) ::
              CreateEntry(seed).params[f.key] == SeedFor(Record(seed), f)
  {
    var e := CreateEntry(seed);
    var specs := SpecsOf(e.action);
    var rest := Record(seed) - {"action"};
    ParamsNormalised(specs, rest);
    forall f | f in specs ensures e.params[f.key] == SeedFor(Record(seed), f) {
      var j :| 0 <= j < |specs| && specs[j] == f;
      ParamsAt(specs, rest, j);
      assert f.key != "action" by { assert f.key in Keys(specs); }
    }
  }

  /** What `add` appends: a TurnOn entry with an empty device. */
  lemma DefaultEntry()
    ensures CreateEntry(Undefined) == ActionEntry(Str("TurnOn"), map["device" := Str("")])
  {
    var e := CreateEntry(Undefined);
    assert SpecsOf(Str("TurnOn")) == [DeviceField];
    assert [DeviceField][..0] == [];
  }

  /** A truthy tag that names no kind gives an entry without fields. */
  lemma UnknownTagHasNoFields(seed: Value)
    requires Truthy(Prop(seed, "action")) && KindOfTag(Prop(seed, "action")).None?
    ensures CreateEntry(seed) == ActionEntry(Prop(seed, "action"), map[])
  {
  }

  /** The rebuild run when the `action` control changes to `k`: the new
      params are built for `k`, seeded from the current params. */
  function ChangeKind(e: ActionEntry, k: ActionKind): (r: ActionEntry)
    ensures WellFormed(r)
    ensures KindOfTag(r.action) == Some(k)
  {
    KindTagRoundTrip(k);
    ParamsNormalised(Specs(k), e.params);
    ActionEntry(Str(KindName(k)), Params(Specs(k), e.params))
  }

  /** After a kind change the entry has exactly the new schema's keys (so
      keys the new schema lacks are dropped); a shared key keeps its value
      unless that value was nullish, in which case it gets the default. */
  lemma ChangeKindCarriesShared(e: ActionEntry, k: ActionKind)
    ensures WellFormed(ChangeKind(e, k))
    ensures ChangeKind(e, k).params.Keys == Keys(Specs(k))
    ensures forall key | key in e.params && key in Keys(Specs(k)) && !Nullish(e.params[key]) ::
              ChangeKind(e, k).params[key] == e.params[key]
    ensures forall j | 0 <= j < |Specs(k)| && Nullish(Get(e.params, Specs(k)[j].key)) ::
              ChangeKind(e, k).params[Specs(k)[j].key] == DefaultFor(Specs(k)[j].kind)
  {
    KindTagRoundTrip(k);
    ParamsSeeded(Specs(k), e.params);
  }

  /** Changing an entry to the kind it already has changes nothing. */
  lemma ChangeKindSameKind(e: ActionEntry, k: ActionKind)
    requires WellFormed(e) && KindOfTag(e.action) == Some(k)
    ensures ChangeKind(e, k) == e
  {
    ParamsFixpoint(Specs(k), e.params);
  }

  /** A second change to the same kind is a no-op. */
  lemma ChangeKindIdempotent(e: ActionEntry, k: ActionKind)
    ensures ChangeKind(ChangeKind(e, k), k) == ChangeKind(e, k)
  {
    KindTagRoundTrip(k);
    ParamsNormalised(Specs(k), e.params);
    ChangeKindSameKind(ChangeKind(e, k), k);
  }

  /** RouteVideo and TogglePage share no key, so a change between them
      starts the page fields empty; the transition starts as "", not "None". */
  lemma RouteVideoToTogglePage()
    ensures ChangeKind(
              ActionEntry(Str("RouteVideo"),
                map["device" := Str("p1"), "input" := Str("hdmi1"), "output" := Str("hdmi2")]),
              TogglePage)
         == ActionEntry(Str("TogglePage"),
              map["page" := Str(""), "layer" := Str(""), "transition" := Str("")])
  {
    var seed := map["device" := Str("p1"), "input" := Str("hdmi1"), "output" := Str("hdmi2")];
    var specs := Specs(TogglePage);
    var r := Params(specs, seed);
    ParamsSeeded(specs, seed);
    assert specs[0].key == "page" && specs[1].key == "layer" && specs[2].key == "transition";
    assert r.Keys == {"page", "layer", "transition"};
    assert r["page"] == Str("") && r["layer"] == Str("") && r["transition"] == Str("");
  }

  /** Angular's required validator: the value is not null or undefined and
      is not an empty string or an empty array. Strings are not trimmed.
      Unlike truthiness it accepts `false` and `0`, and it rejects `[]`. */
  predicate Required(v: Value): (r: bool)
    ensures r <==> v != Arr([]) && (Truthy(v) || v == Bool(false) || v == Num(0))
  {
    !Nullish(v) && v != Str("") && v != Arr([])
  }

  /** An entry's controls are all valid: the tag is present and every
      required field of its schema passes `Required`. */
  predicate EntryValid(e: ActionEntry) {
    && Required(e.action)
    && forall f | f in SpecsOf(e.action) && f.required :: Required(Get(e.params, f.key))
  }

  /** Validity kind by kind, read off the required flags of the registry:
      a TurnOn or TurnOff row needs its device, a RouteVideo row its device,
      input and output, a page row its page (layer and transition are
      optional), a StartAutoshutdown row its seconds, and a row with an
      unknown tag only its tag. */
  lemma EntryValidByKind(e: ActionEntry)
    ensures e.action == Str("TurnOn") || e.action == Str("TurnOff") ==>
              (EntryValid(e) <==> Required(Get(e.params, "device")))
    ensures e.action == Str("RouteVideo") ==>
              (EntryValid(e) <==> Required(Get(e.params, "device")) && Required(Get(e.params, "input"))
                                  && Required(Get(e.params, "output")))
    ensures e.action == Str("TogglePage") || e.action == Str("ShowPage") || e.action == Str("HidePage") ==>
              (EntryValid(e) <==> Required(Get(e.params, "page")))
    ensures e.action == Str("StartAutoshutdown") ==>
              (EntryValid(e) <==> Required(Get(e.params, "seconds")))
    ensures KindOfTag(e.action).None? ==> (EntryValid(e) <==> Required(e.action))
  {
    if KindOfTag(e.action).Some? {
      var k := KindOfTag(e.action).value;
      assert Required(e.action);
      ValidOfKind(e, k);
    }
  }

  /** The keys of the fields the registry marks required for kind `k`. */
  function RequiredKeys(k: ActionKind): set<string> {
    match k
    case TurnOn => {"device"}
    case TurnOff => {"device"}
    case RouteVideo => {"device", "input", "output"}
    case TogglePage => {"page"}
    case ShowPage => {"page"}
    case HidePage => {"page"}
    case StartAutoshutdown => {"seconds"}
  }

  lemma ValidOfKind(e: ActionEntry, k: ActionKind)
    requires Required(e.action) && SpecsOf(e.action) == Specs(k)
    ensures EntryValid(e) <==> forall key | key in RequiredKeys(k) :: Required(Get(e.params, key))
  {
    if k == RouteVideo {
      assert DeviceField in Specs(k) && InputField in Specs(k) && OutputField in Specs(k);
    } else if k == TogglePage || k == ShowPage || k == HidePage {
      assert PageField in Specs(k);
    } else if k == StartAutoshutdown {
      assert SecondsField in Specs(k);
    } else {
      assert DeviceField in Specs(k);
    }
  }

  /** A StartAutoshutdown entry is invalid while `seconds` is null and valid
      once it holds any number, 0 included. */
  lemma AutoshutdownValidity(n: int)
    ensures !EntryValid(ActionEntry(Str("StartAutoshutdown"), map["seconds" := Null]))
    ensures EntryValid(ActionEntry(Str("StartAutoshutdown"), map["seconds" := Num(n)]))
  {
    assert SecondsField in SpecsOf(Str("StartAutoshutdown"));
  }

  /** A freshly added entry blocks saving until a device is chosen. */
  lemma DefaultEntryInvalid()
    ensures !EntryValid(CreateEntry(Undefined))
  {
    DefaultEntry();
    assert DeviceField in SpecsOf(Str("TurnOn"));
  }
}
