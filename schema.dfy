/** The action schema registry: for each action kind, the ordered list of
    fields an action of that kind carries. */
module Schema {
  import opened Json

  datatype ActionKind =
    | TurnOn
    | TurnOff
    | RouteVideo
    | TogglePage
    | ShowPage
    | HidePage
    | StartAutoshutdown

  /** The input widget a field is edited with. */
  datatype FieldKind = Text | Number | Select

  /** Where a select field takes its options from in the editor context. */
  datatype OptionSource = NoOptions | FromDeviceIds | FromPageIds | FromTransitions

  datatype FieldSpec = FieldSpec(
    key: string,
    caption: string,
    kind: FieldKind,
    required: bool,
    options: OptionSource)

  /** The tag an action of kind `k` carries in its `action` property. */
  function KindName(k: ActionKind): string {
    match k
    case TurnOn => "TurnOn"
    case TurnOff => "TurnOff"
    case RouteVideo => "RouteVideo"
    case TogglePage => "TogglePage"
    case ShowPage => "ShowPage"
    case HidePage => "HidePage"
    case StartAutoshutdown => "StartAutoshutdown"
  }

  /** The kinds in the order the kind selector lists them. */
  const AllKinds: seq<ActionKind> :=
    [TurnOn, TurnOff, RouteVideo, TogglePage, ShowPage, HidePage, StartAutoshutdown]

  /** The kind whose registry entry `actionSpecs[tag]` finds, if any. */
  function KindOfTag(tag: Value): (r: Option<ActionKind>)
    ensures r.Some? ==> tag == Str(KindName(r.value))
    ensures r.None? ==> forall k :: tag != Str(KindName(k))
  {
    if !tag.Str? then None
    else if tag.s == "TurnOn" then Some(TurnOn)
    else if tag.s == "TurnOff" then Some(TurnOff)
    else if tag.s == "RouteVideo" then Some(RouteVideo)
    else if tag.s == "TogglePage" then Some(TogglePage)
    else if tag.s == "ShowPage" then Some(ShowPage)
    else if tag.s == "HidePage" then Some(HidePage)
    else if tag.s == "StartAutoshutdown" then Some(StartAutoshutdown)
    else None
  }

  const DeviceField := FieldSpec("device", "Device", Select, true, FromDeviceIds)
  const InputField := FieldSpec("input", "Input", Text, true, NoOptions)
  const OutputField := FieldSpec("output", "Output", Text, true, NoOptions)
  const PageField := FieldSpec("page", "Page", Select, true, FromPageIds)
  const LayerField := FieldSpec("layer", "Layer", Text, false, NoOptions)
  const TransitionField := FieldSpec("transition", "Transition", Select, false, FromTransitions)
  const SecondsField := FieldSpec("seconds", "Seconds", Number, true, NoOptions)

  /** The field keys of a list of specs. */
  function Keys(specs: seq<FieldSpec>): set<string> {
    set i | 0 <= i < |specs| :: specs[i].key
  }

  predicate DistinctKeys(specs: seq<FieldSpec>) {
    forall i, j | 0 <= i < j < |specs| :: specs[i].key != specs[j].key
  }

  /** `actionSpecs[k]`: the registry is total over the kinds, every list is
      non-empty, names each field once, and never uses the `action` key
      that the flat record reserves for the kind tag. */
  function Specs(k: ActionKind): (r: seq<FieldSpec>)
    ensures r != []
    ensures DistinctKeys(r)
    ensures "action" !in Keys(r)
  {
    match k
    case TurnOn => [DeviceField]
    case TurnOff => [DeviceField]
    case RouteVideo => [DeviceField, InputField, OutputField]
    case TogglePage => [PageField, LayerField, TransitionField]
    case ShowPage => [PageField, LayerField, TransitionField]
    case HidePage => [PageField, LayerField, TransitionField]
    case StartAutoshutdown => [SecondsField]
  }

  /** `actionSpecs[type] ?? []`: an unknown tag has no fields. */
  function SpecsOf(tag: Value): (r: seq<FieldSpec>)
    ensures DistinctKeys(r) && "action" !in Keys(r)
  {
    match KindOfTag(tag)
    case Some(k) => Specs(k)
    case None => []
  }

  /** The field keys of a list of specs, in order. */
  function KeyList(specs: seq<FieldSpec>): seq<string> {
    if specs == [] then [] else [specs[0].key] + KeyList(specs[1..])
  }

  /** The registry read as ordered key lists, kind by kind. */
  lemma RegistryKeyLists()
    ensures KeyList(Specs(TurnOn)) == KeyList(Specs(TurnOff)) == ["device"]
    ensures KeyList(Specs(RouteVideo)) == ["device", "input", "output"]
    ensures KeyList(Specs(TogglePage)) == KeyList(Specs(ShowPage)) == KeyList(Specs(HidePage))
         == ["page", "layer", "transition"]
    ensures KeyList(Specs(StartAutoshutdown)) == ["seconds"]
  {
  }

  /** A key names the same field in every schema that has it: same caption,
      widget, required flag and option source. This is what lets a kind
      change carry a value over unchanged. */
  lemma SharedKeysAgree(k1: ActionKind, k2: ActionKind, i: nat, j: nat)
    requires i < |Specs(k1)| && j < |Specs(k2)|
    requires Specs(k1)[i].key == Specs(k2)[j].key
    ensures Specs(k1)[i] == Specs(k2)[j]
  {
  }

  /** The kind selector lists every registered kind exactly once, so the
      tags it offers are exactly the tags the registry recognises. */
  lemma AllKindsListsRegistry()
    ensures forall k: ActionKind :: k in AllKinds
    ensures forall i, j | 0 <= i < j < |AllKinds| :: AllKinds[i] != AllKinds[j]
    ensures forall tag | KindOfTag(tag).Some? :: tag in Tags(AllKinds)
  {
    forall k: ActionKind ensures k in AllKinds {
      match k
      case TurnOn => assert AllKinds[0] == k;
      case TurnOff => assert AllKinds[1] == k;
      case RouteVideo => assert AllKinds[2] == k;
      case TogglePage => assert AllKinds[3] == k;
      case ShowPage => assert AllKinds[4] == k;
      case HidePage => assert AllKinds[5] == k;
      case StartAutoshutdown => assert AllKinds[6] == k;
    }
    forall tag | KindOfTag(tag).Some? ensures tag in Tags(AllKinds) {
      TagsMembers(AllKinds, KindOfTag(tag).value);
    }
  }

  /** The option values of the kind selector, one tag per kind. */
  function Tags(ks: seq<ActionKind>): (r: seq<Value>)
    ensures |r| == |ks|
  {
    if ks == [] then [] else [Str(KindName(ks[0]))] + Tags(ks[1..])
  }

  lemma {:induction false} TagsMembers(ks: seq<ActionKind>, k: ActionKind)
    requires k in ks
    ensures Str(KindName(k)) in Tags(ks)
    decreases |ks|
  {
    if ks[0] != k {
      TagsMembers(ks[1..], k);
    }
  }

  /** The tag of a kind names that kind and no other. */
  lemma KindTagRoundTrip(k: ActionKind)
    ensures KindOfTag(Str(KindName(k))) == Some(k)
  {
  }
}
