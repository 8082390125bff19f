/** The room configuration editor: the form's plain fields, its two action
    lists, loading a configuration document into them and saving them back. */
module EditPage {
  import opened Json
  import opened Schema
  import opened Entries
  import opened Serializer
  import opened Dates
  import opened Context

  /** One of the form's two action arrays (`SystemOnActions`,
      `SystemOffActions`), mutated in place by the editor. */
  class ActionList {
    var entries: seq<ActionEntry>

    ghost predicate Valid()
      reads this
    {
      forall i | 0 <= i < |entries| :: WellFormed(entries[i])
    }

    constructor()
      ensures Valid() && entries == []
    {
      entries := [];
    }

    method Clear()
      modifies this
      ensures Valid() && entries == []
    {
      entries := [];
    }

    method Push(e: ActionEntry)
      requires Valid() && WellFormed(e)
      modifies this
      ensures Valid() && entries == old(entries) + [e]
    {
      entries := entries + [e];
    }

    /** Removes the row at position `i` and keeps the others in order; an
        index past the end removes nothing. */
    method RemoveAt(i: nat)
      requires Valid()
      modifies this
      ensures Valid()
      ensures i < |old(entries)| ==> entries == old(entries)[..i] + old(entries)[i + 1..]
      ensures i >= |old(entries)| ==> entries == old(entries)
    {
      if i < |entries| {
        entries := entries[..i] + entries[i + 1..];
      }
    }

    /** `resetActionsArray(arr, values)`: clears the array, then appends one
        row per record of `values` when it is an array. */
    method Reset(values: Value)
      modifies this
      ensures Valid() && entries == Deserialize(values)
    {
      Clear();
      var list := if values.Arr? then values.items else [];
      for i := 0 to |list|
        invariant Valid()
        invariant entries == CreateAll(list[..i])
      {
        var e := CreateActionGroup(list[i]);
        Push(e);
        assert list[..i + 1] == list[..i] + [list[i]];
        CreateAllSnoc(list[..i], list[i]);
      }
      assert list[..|list|] == list;
    }

    /** The user picks kind `k` for row `i`: the `action` control takes the
        new tag and its change handler rebuilds the row's params from their
        current values. */
    method SetKind(i: nat, k: ActionKind)
      requires Valid() && i < |entries|
      modifies this
      ensures Valid()
      ensures entries == old(entries)[i := ChangeKind(old(entries)[i], k)]
    {
      ghost var changed := ChangeKind(entries[i], k);
      var tag := Str(KindName(k));
      var params := BuildParamsGroup(tag, entries[i].params);
      assert ActionEntry(tag, params) == changed;
      entries := entries[i := ActionEntry(tag, params)];
    }

    /** The user edits field `key` of row `i`; only the fields the row's
        schema rendered exist as controls, and a control's widget only
        yields a settled value for it (an input or a select gives a string
        or an option value, an empty number input gives null). */
    method SetField(i: nat, key: string, v: Value)
      requires Valid() && i < |entries| && key in entries[i].params
      requires forall j | 0 <= j < |SpecsOf(entries[i].action)| && SpecsOf(entries[i].action)[j].key == key ::
                 Settled(v, SpecsOf(entries[i].action)[j].kind)
      modifies this
      ensures Valid()
      ensures entries == old(entries)[i := ActionEntry(old(entries)[i].action, old(entries)[i].params[key := v])]
    {
      entries := entries[i := ActionEntry(entries[i].action, entries[i].params[key := v])];
    }
  }

  /** The names of the form's plain controls. */
  const FormKeys: set<string> :=
    {"campus", "building", "room", "ip", "roomType", "version", "updatedBy", "updatedAt", "sla", "slaExpireAt"}

  /** The plain controls as the form is created. */
  const InitialFields: map<string, Value> := map[
    "campus" := Str(""), "building" := Str(""), "room" := Str(""), "ip" := Str(""),
    "roomType" := Str("Other"), "version" := Num(1), "updatedBy" := Str(""),
    "updatedAt" := Null, "sla" := Str(""), "slaExpireAt" := Null]

  /** The plain controls after `patchValue` with a loaded configuration. */
  function PatchedFields(rt: DateRuntime, cfg: Value): (r: map<string, Value>)
    ensures r.Keys == FormKeys
  {
    map[
      "campus" := Coalesce(Prop(cfg, "campus"), Str("")),
      "building" := Coalesce(Prop(cfg, "building"), Str("")),
      "room" := Coalesce(Prop(cfg, "room"), Str("")),
      "ip" := Coalesce(Prop(cfg, "ip"), Str("")),
      "roomType" := Coalesce(Prop(cfg, "roomType"), Str("Other")),
      "version" := Coalesce(Prop(cfg, "version"), Num(1)),
      "updatedBy" := Coalesce(Prop(cfg, "updatedBy"), Str("")),
      "updatedAt" := ParseDate(rt, Prop(cfg, "updatedAt")),
      "sla" := Coalesce(Prop(cfg, "sla"), Str("")),
      "slaExpireAt" := ParseDate(rt, Prop(cfg, "slaExpireAt"))]
  }

  /** The form is valid: the four identity fields are required, and so is
      every row's tag and every required field of every row. */
  predicate FormValid(fields: map<string, Value>, on: seq<ActionEntry>, off: seq<ActionEntry>) {
    && Required(Get(fields, "campus"))
    && Required(Get(fields, "building"))
    && Required(Get(fields, "room"))
    && Required(Get(fields, "ip"))
    && (forall i | 0 <= i < |on| :: EntryValid(on[i]))
    && (forall i | 0 <= i < |off| :: EntryValid(off[i]))
  }

  /** Editing a control other than the four identity fields leaves the
      form's validity as it was; after editing one of those four, a valid
      form holds a required value there. */
  lemma FormValidAfterEdit(fields: map<string, Value>, on: seq<ActionEntry>, off: seq<ActionEntry>,
                           key: string, v: Value)
    ensures key !in {"campus", "building", "room", "ip"} ==>
              (FormValid(fields[key := v], on, off) <==> FormValid(fields, on, off))
    ensures key in {"campus", "building", "room", "ip"} && FormValid(fields[key := v], on, off) ==>
              Required(v)
  {
    var edited := fields[key := v];
    assert forall k | k != key :: Get(edited, k) == Get(fields, k);
    assert Get(edited, key) == v;
  }

  /** Removing a row from a valid form leaves it valid. */
  lemma FormValidRemoveRow(fields: map<string, Value>, on: seq<ActionEntry>, off: seq<ActionEntry>, i: int)
    requires FormValid(fields, on, off) && 0 <= i < |on|
    ensures FormValid(fields, on[..i] + on[i + 1..], off)
  {
    var rest := on[..i] + on[i + 1..];
    forall j | 0 <= j < |rest| ensures EntryValid(rest[j]) {
      if j < i {
        assert rest[j] == on[j];
      } else {
        assert rest[j] == on[j + 1];
      }
    }
  }

  /** The `config` sent on save: every form value, plus `roomId`, with the
      two dates in ISO form and the two action lists flattened. */
  function SavedConfig(rt: DateRuntime, fields: map<string, Value>, roomId: string,
                       on: seq<ActionEntry>, off: seq<ActionEntry>): map<string, Value>
  {
    fields + map[
      "roomId" := Str(roomId),
      "updatedAt" := ToIsoOrNull(rt, Get(fields, "updatedAt")),
      "slaExpireAt" := ToIsoOrNull(rt, Get(fields, "slaExpireAt")),
      "SystemOnActions" := Arr(Flatten(on)),
      "SystemOffActions" := Arr(Flatten(off))]
  }

  /** `err?.error?.error || err?.message || fallback` */
  function ErrorText(err: Value, fallback: string): (r: Value)
    ensures Truthy(Prop(Prop(err, "error"), "error")) ==> r == Prop(Prop(err, "error"), "error")
    ensures !Truthy(Prop(Prop(err, "error"), "error")) && Truthy(Prop(err, "message")) ==>
              r == Prop(err, "message")
    ensures !Truthy(Prop(Prop(err, "error"), "error")) && !Truthy(Prop(err, "message")) ==>
              r == Str(fallback)
    ensures fallback != "" ==> Truthy(r)
  {
    Or(Prop(Prop(err, "error"), "error"), Or(Prop(err, "message"), Str(fallback)))
  }

  /** The saved config keeps every other form value, adds `roomId` and the
      two action lists, and puts the two dates in ISO form. */
  lemma SavedConfigFields(rt: DateRuntime, fields: map<string, Value>, roomId: string,
                          on: seq<ActionEntry>, off: seq<ActionEntry>)
    requires "updatedAt" in fields && "slaExpireAt" in fields
    ensures SavedConfig(rt, fields, roomId, on, off).Keys
         == fields.Keys + {"roomId", "SystemOnActions", "SystemOffActions"}
    ensures forall k | k in fields && k !in {"roomId", "updatedAt", "slaExpireAt", "SystemOnActions", "SystemOffActions"} ::
              SavedConfig(rt, fields, roomId, on, off)[k] == fields[k]
    ensures SavedConfig(rt, fields, roomId, on, off)["roomId"] == Str(roomId)
    ensures SavedConfig(rt, fields, roomId, on, off)["updatedAt"] == ToIsoOrNull(rt, fields["updatedAt"])
    ensures SavedConfig(rt, fields, roomId, on, off)["slaExpireAt"] == ToIsoOrNull(rt, fields["slaExpireAt"])
  {
  }

  /** The action lists are saved as flat records that load back into the
      same rows. */
  lemma SavedConfigActions(rt: DateRuntime, fields: map<string, Value>, roomId: string,
                           on: seq<ActionEntry>, off: seq<ActionEntry>)
    requires forall i | 0 <= i < |on| :: WellFormed(on[i])
    requires forall i | 0 <= i < |off| :: WellFormed(off[i])
    ensures Deserialize(SavedConfig(rt, fields, roomId, on, off)["SystemOnActions"]) == on
    ensures Deserialize(SavedConfig(rt, fields, roomId, on, off)["SystemOffActions"]) == off
  {
    var saved := SavedConfig(rt, fields, roomId, on, off);
    assert saved["SystemOnActions"] == Arr(Flatten(on));
    assert saved["SystemOffActions"] == Arr(Flatten(off));
    LoadAfterFlatten(on);
    LoadAfterFlatten(off);
  }

  /** A load that finds no actions for a list puts a TurnOn row with no
      device in it, and that row keeps the form invalid. */
  lemma EmptyListBlocksSave(fields: map<string, Value>, values: Value, other: seq<ActionEntry>)
    requires Deserialize(values) == []
    ensures !FormValid(fields, LoadedList(values), other)
    ensures !FormValid(fields, other, LoadedList(values))
  {
    DefaultEntryInvalid();
    assert LoadedList(values) == [CreateEntry(Undefined)];
    assert !EntryValid(LoadedList(values)[0]);
  }

  class EditPage {
    var loading: bool
    var loadError: Value
    var saving: bool
    var roomId: string
    var fields: map<string, Value>
    var ctx: EditorContext
    const systemOnActions: ActionList
    const systemOffActions: ActionList

    ghost predicate Valid()
      reads this, systemOnActions, systemOffActions
    {
      && systemOnActions != systemOffActions
      && systemOnActions.Valid()
      && systemOffActions.Valid()
      && fields.Keys == FormKeys
    }

    constructor()
      ensures Valid() && fresh(systemOnActions) && fresh(systemOffActions)
      ensures loading && loadError == Null && !saving && roomId == ""
      ensures fields == InitialFields && ctx == InitialContext
      ensures systemOnActions.entries == [] && systemOffActions.entries == []
    {
      loading := true;
      loadError := Null;
      saving := false;
      roomId := "";
      fields := InitialFields;
      ctx := InitialContext;
      systemOnActions := new ActionList();
      systemOffActions := new ActionList();
    }

    /** `ngOnInit` with the route's `id` parameter: without one the page
        reports the error and stops; with one it starts the fetch. */
    method OnInit(id: Option<string>) returns (fetching: bool)
      requires Valid()
      modifies this
      ensures Valid()
      ensures fetching <==> id.Some? && id.value != ""
      ensures !fetching ==> !loading && loadError == Str("Missing room id in route.") && roomId == old(roomId)
      ensures fetching ==> loading && loadError == Null && roomId == id.value
      ensures saving == old(saving) && fields == old(fields) && ctx == old(ctx)
    {
      if id.None? || id.value == "" {
        loading := false;
        loadError := Str("Missing room id in route.");
        return false;
      }
      roomId := id.value;
      FetchRoom();
      return true;
    }

    /** The synchronous part of `fetchRoom`; the response arrives later as
        `LoadSucceeded` or `LoadFailed`. */
    method FetchRoom()
      requires Valid()
      modifies this
      ensures Valid()
      ensures loading && loadError == Null
      ensures saving == old(saving) && roomId == old(roomId) && fields == old(fields) && ctx == old(ctx)
    {
      loading := true;
      loadError := Null;
    }

    /** The fetch returned document `doc`: its `config` (or an empty object)
        is applied to the form and loading ends. */
    method LoadSucceeded(rt: DateRuntime, doc: Value)
      requires Valid()
      modifies this, systemOnActions, systemOffActions
      ensures Valid() && !loading
      ensures var cfg := Coalesce(Prop(doc, "config"), Obj(map[]));
              && fields == PatchedFields(rt, cfg)
              && ctx == DeriveContext(cfg)
              && systemOnActions.entries == LoadedList(Prop(cfg, "SystemOnActions"))
              && systemOffActions.entries == LoadedList(Prop(cfg, "SystemOffActions"))
      ensures loadError == old(loadError) && saving == old(saving) && roomId == old(roomId)
    {
      var cfg := Coalesce(Prop(doc, "config"), Obj(map[]));
      ApplyConfigToForm(rt, cfg);
      loading := false;
    }

    /** The fetch failed with `err`: its message is shown and loading ends. */
    method LoadFailed(err: Value)
      requires Valid()
      modifies this
      ensures Valid() && !loading
      ensures loadError == ErrorText(err, "Failed to load room config.")
      ensures saving == old(saving) && roomId == old(roomId) && fields == old(fields) && ctx == old(ctx)
    {
      loadError := ErrorText(err, "Failed to load room config.");
      loading := false;
    }

    /** `applyConfigToForm(cfg)`: patches the plain fields, derives the
        editor context, rebuilds both action lists and gives each empty one
        a default row. */
    method ApplyConfigToForm(rt: DateRuntime, cfg: Value)
      requires Valid()
      modifies this, systemOnActions, systemOffActions
      ensures Valid()
      ensures fields == PatchedFields(rt, cfg) && ctx == DeriveContext(cfg)
      ensures systemOnActions.entries == LoadedList(Prop(cfg, "SystemOnActions"))
      ensures systemOffActions.entries == LoadedList(Prop(cfg, "SystemOffActions"))
      ensures loading == old(loading) && loadError == old(loadError)
      ensures saving == old(saving) && roomId == old(roomId)
    {
      PatchForm(rt, cfg);
      RebuildActions(Prop(cfg, "SystemOnActions"), Prop(cfg, "SystemOffActions"));
    }

    /** The first part of `applyConfigToForm`: the plain fields are patched
        and the editor context derived. */
    method PatchForm(rt: DateRuntime, cfg: Value)
      requires Valid()
      modifies this
      ensures Valid()
      ensures fields == PatchedFields(rt, cfg) && ctx == DeriveContext(cfg)
      ensures loading == old(loading) && loadError == old(loadError)
      ensures saving == old(saving) && roomId == old(roomId)
    {
      fields := PatchedFields(rt, cfg);
      ctx := DeriveContext(cfg);
    }

    /** The last part of `applyConfigToForm`: both action arrays are reset
        from the stored lists, and an array left empty gets a default row. */
    method RebuildActions(onValues: Value, offValues: Value)
      requires Valid()
      modifies systemOnActions, systemOffActions
      ensures Valid()
      ensures systemOnActions.entries == LoadedList(onValues)
      ensures systemOffActions.entries == LoadedList(offValues)
    {
      LoadedListCases(onValues);
      LoadedListCases(offValues);
      systemOnActions.Reset(onValues);
      systemOffActions.Reset(offValues);
      if |systemOnActions.entries| == 0 {
        AddSystemOnAction();
      }
      assert systemOnActions.entries == LoadedList(onValues);
      if |systemOffActions.entries| == 0 {
        AddSystemOffAction();
      }
    }

    /** The user edits plain control `key` (a text input, the room type
        select, or one of the two date pickers, which hold a Date or null). */
    method SetPlainField(key: string, v: Value)
      requires Valid() && key in FormKeys
      modifies this
      ensures Valid() && fields == old(fields)[key := v]
      ensures loading == old(loading) && loadError == old(loadError) && saving == old(saving)
      ensures roomId == old(roomId) && ctx == old(ctx)
    {
      fields := fields[key := v];
    }

    /** Appends a default TurnOn row with an empty device. */
    method AddSystemOnAction()
      requires Valid()
      modifies systemOnActions
      ensures Valid()
      ensures systemOnActions.entries
           == old(systemOnActions.entries) + [ActionEntry(Str("TurnOn"), map["device" := Str("")])]
    {
      DefaultEntry();
      var e := CreateActionGroup(Undefined);
      systemOnActions.Push(e);
    }

    method RemoveSystemOnAction(index: nat)
      requires Valid()
      modifies systemOnActions
      ensures Valid()
      ensures index < |old(systemOnActions.entries)| ==>
                systemOnActions.entries
                  == old(systemOnActions.entries)[..index] + old(systemOnActions.entries)[index + 1..]
      ensures index >= |old(systemOnActions.entries)| ==>
                systemOnActions.entries == old(systemOnActions.entries)
    {
      systemOnActions.RemoveAt(index);
    }

    /** Appends a default TurnOn row with an empty device. */
    method AddSystemOffAction()
      requires Valid()
      modifies systemOffActions
      ensures Valid()
      ensures systemOffActions.entries
           == old(systemOffActions.entries) + [ActionEntry(Str("TurnOn"), map["device" := Str("")])]
    {
      DefaultEntry();
      var e := CreateActionGroup(Undefined);
      systemOffActions.Push(e);
    }

    method RemoveSystemOffAction(index: nat)
      requires Valid()
      modifies systemOffActions
      ensures Valid()
      ensures index < |old(systemOffActions.entries)| ==>
                systemOffActions.entries
                  == old(systemOffActions.entries)[..index] + old(systemOffActions.entries)[index + 1..]
      ensures index >= |old(systemOffActions.entries)| ==>
                systemOffActions.entries == old(systemOffActions.entries)
    {
      systemOffActions.RemoveAt(index);
    }

    /** `onSave`: refused while the form is invalid or a save is in flight;
        otherwise marks the save in flight and returns the request body
        `{config: ...}` that is sent. */
    method OnSave(rt: DateRuntime) returns (request: Option<Value>)
      requires Valid()
      modifies this
      ensures Valid()
      ensures request.Some? <==>
                old(FormValid(fields, systemOnActions.entries, systemOffActions.entries)) && !old(saving)
      ensures request.None? ==> saving == old(saving)
      ensures request.Some? ==> saving && request.value == Obj(map["config" := Obj(
                SavedConfig(rt, fields, roomId, systemOnActions.entries, systemOffActions.entries))])
      ensures request.Some? ==>
                var saved := SavedConfig(rt, fields, roomId, systemOnActions.entries, systemOffActions.entries);
                && Deserialize(saved["SystemOnActions"]) == systemOnActions.entries
                && Deserialize(saved["SystemOffActions"]) == systemOffActions.entries
      ensures loading == old(loading) && loadError == old(loadError)
      ensures roomId == old(roomId) && fields == old(fields) && ctx == old(ctx)
    {
      SavedConfigActions(rt, fields, roomId, systemOnActions.entries, systemOffActions.entries);
      if !FormValid(fields, systemOnActions.entries, systemOffActions.entries) || saving {
        return None;
      }
      saving := true;
      var config := SavedConfig(rt, fields, roomId, systemOnActions.entries, systemOffActions.entries);
      return Some(Obj(map["config" := Obj(config)]));
    }

    /** The save request succeeded (leaving the page is not modelled). */
    method SaveSucceeded()
      requires Valid()
      modifies this
      ensures Valid() && !saving
      ensures loading == old(loading) && loadError == old(loadError)
      ensures roomId == old(roomId) && fields == old(fields) && ctx == old(ctx)
    {
      saving := false;
    }

    /** The save request failed with `err`: the form stays as it is and can
        be submitted again. */
    method SaveFailed(err: Value)
      requires Valid()
      modifies this
      ensures Valid() && !saving
      ensures loadError == ErrorText(err, "Save failed.")
      ensures loading == old(loading) && roomId == old(roomId) && fields == old(fields) && ctx == old(ctx)
    {
      saving := false;
      loadError := ErrorText(err, "Save failed.");
    }
  }
}
