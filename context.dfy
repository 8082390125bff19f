/** The editor context: the option values of the select fields, derived
    from the loaded configuration document. */
module Context {
  import opened Json

  datatype EditorContext = EditorContext(
    deviceIds: set<string>,
    pageIds: seq<Value>,
    layerIds: seq<Value>,
    transitions: seq<string>)

  /** The context before any document has loaded. */
  const InitialContext := EditorContext({}, [], [], ["None"])

  /** `pages.map(p => p?.Id).filter(Boolean)` */
  function PageIds(pages: seq<Value>): seq<Value> {
    if pages == [] then []
    else
      var id := Prop(pages[0], "Id");
      (if Truthy(id) then [id] else []) + PageIds(pages[1..])
  }

  /** The context a loaded configuration `cfg` yields: the keys of
      `Devices`, the truthy `Id`s of `Pages` when it is an array, no layers,
      and the fixed transition catalogue. */
  function DeriveContext(cfg: Value): EditorContext {
    var devices := Coalesce(Prop(cfg, "Devices"), Obj(map[]));
    var pages := Prop(cfg, "Pages");
    EditorContext(
      ObjectKeys(devices),
      if pages.Arr? then PageIds(pages.items) else [],
      [],
      ["None", "Fade", "Slide"])
  }

  /** The page ids keep page order: the ids of two runs of pages are the
      ids of the first run followed by those of the second. */
  lemma {:induction false} PageIdsAppend(a: seq<Value>, b: seq<Value>)
    ensures PageIds(a + b) == PageIds(a) + PageIds(b)
  {
    if a == [] {
      assert a + b == b;
    } else {
      assert (a + b)[1..] == a[1..] + b;
      PageIdsAppend(a[1..], b);
    }
  }

  /** A value is a page id exactly when it is truthy and is the `Id` of some
      page; there are never more ids than pages. */
  lemma {:induction false} PageIdsMembers(pages: seq<Value>)
    ensures |PageIds(pages)| <= |pages|
    ensures forall x :: x in PageIds(pages) <==>
              Truthy(x) && exists i | 0 <= i < |pages| :: Prop(pages[i], "Id") == x
  {
    if pages != [] {
      PageIdsMembers(pages[1..]);
      forall x | Truthy(x) && (exists i | 0 <= i < |pages| :: Prop(pages[i], "Id") == x)
        ensures x in PageIds(pages)
      {
        var i :| 0 <= i < |pages| && Prop(pages[i], "Id") == x;
        if i > 0 {
          assert Prop(pages[1..][i - 1], "Id") == x;
        }
      }
      forall x | x in PageIds(pages[1..])
        ensures exists i | 0 <= i < |pages| :: Prop(pages[i], "Id") == x
      {
        var i :| 0 <= i < |pages[1..]| && Prop(pages[1..][i], "Id") == x;
        assert Prop(pages[i + 1], "Id") == x;
      }
    }
  }

  /** The derived context: device ids are the keys of the `Devices` object
      (none when it is absent), page ids come only from an array `Pages`,
      layers are always empty and the transitions always None, Fade, Slide. */
  lemma DeriveContextShape(cfg: Value)
    ensures Nullish(Prop(cfg, "Devices")) ==> DeriveContext(cfg).deviceIds == {}
    ensures Prop(cfg, "Devices").Obj? ==> DeriveContext(cfg).deviceIds == Prop(cfg, "Devices").props.Keys
    ensures !Prop(cfg, "Pages").Arr? ==> DeriveContext(cfg).pageIds == []
    ensures forall x :: x in DeriveContext(cfg).pageIds ==> Truthy(x)
    ensures DeriveContext(cfg).layerIds == []
    ensures DeriveContext(cfg).transitions == ["None", "Fade", "Slide"]
  {
    var pages := Prop(cfg, "Pages");
    if pages.Arr? {
      PageIdsMembers(pages.items);
    }
  }
}
