# Room configuration editor and room monitor, modelled in Dafny

This project models the two pages of the room-control web client that hold
its logic:

- the **edit page** (`src/app/components/edit-page/edit-page.ts`), a
  schema-driven editor for one room's configuration document: a registry
  maps each action kind (`TurnOn`, `TurnOff`, `RouteVideo`, `TogglePage`,
  `ShowPage`, `HidePage`, `StartAutoshutdown`) to its ordered list of
  fields; the page loads a document, builds one editable entry per stored
  action record, rebuilds an entry's fields when its kind changes (keeping
  the values of shared keys), validates the form and saves the document
  back with the actions flattened into `{action, ...fields}` records;
- the **monitor page** (`src/app/components/monitor-page/monitor-page.ts`),
  which loads the list of room documents and derives from it the option
  lists of its campus, building and room-type filters and the rooms shown
  for the current search text and filters.

Modules:

| file | module | what it holds |
|---|---|---|
| `json.dfy` | `Json` | JavaScript values (`undefined`, `null`, booleans, integers, strings, arrays, plain objects, Date objects) and the operators the pages apply to them: truthiness, `??`, `\|\|`, `?.`, object spread, `String(v)`, `Object.keys` |
| `schema.dfy` | `Schema` | the action kinds, field specs and the registry |
| `entries.dfy` | `Entries` | an action entry, building its fields from a seed, the kind change, required-field validation |
| `serializer.dfy` | `Serializer` | stored action records to entries and back, with the round-trip lemmas |
| `dates.dfy` | `Dates` | `parseDate` and `toIsoOrNull` over a given date runtime |
| `context.dfy` | `Context` | the editor context (device ids, page ids, layers, transitions) derived from a document |
| `editpage.dfy` | `EditPage` | the form's action arrays (class `ActionList`) and the page's state machine (class `EditPage`) |
| `jsstring.dfy` | `JsString` | `trim`, `toLowerCase` and `includes` on strings |
| `sorting.dfy` | `Sorting` | the comparator sort of the option lists |
| `monitor.dfy` | `MonitorPage` | normalisation, option lists, the search filter and the page's state (class `Monitor`) |

The central property is the action round trip: a canonical stored record
(an object whose truthy `action` is joined by exactly the fields of that
kind's schema, none of them null or undefined, and none of them, nor the
`action`, an object with exactly the keys `value` and `disabled`, which
Angular's form controls unbox; see "Left out") loads into an entry that
flattens back to the same record (`Serializer.RecordRoundTrip`,
`Serializer.FlattenAfterLoad`), and every entry the editor holds flattens to
a record that loads back into the same entry (`Serializer.EntryRoundTrip`,
`Serializer.LoadAfterFlatten`, `EditPage.SavedConfigActions`): an entry the
editor holds always has a truthy tag, exactly the fields of that tag's
schema and a settled value in each (`Entries.WellFormed`, kept by every
`EditPage.ActionList` method), which is what that round trip needs. A list that
loads empty is padded with a default TurnOn row whose empty device keeps the
form invalid (`EditPage.EmptyListBlocksSave`).

Notes on the source:

- a field a kind change or a new entry fills from nothing starts as `""`
  (text and select fields) or `null` (number fields); the `transition`
  field therefore starts as `""`, not as `"None"`
  (`Entries.RouteVideoToTogglePage`);
- the required check is Angular's `Validators.required`: it rejects null,
  undefined, the empty string and the empty array, does not trim strings
  and does not ask a number to be finite (`Entries.Required`);
- page ids are the truthy `Id`s of the pages, so an `Id` of `0` or `""` is
  skipped as well as a missing one (`Context.PageIdsMembers`).

## Model

| member | source | states |
|---|---|---|
| Schema.KindOfTag | src/app/components/edit-page/edit-page.ts:27-34 | a tag finds a kind exactly when it is the string naming that kind |
| Schema.KindTagRoundTrip | src/app/components/edit-page/edit-page.ts:27-34 | the tag of a kind finds that kind and no other |
| Schema.AllKindsListsRegistry | src/app/components/edit-page/edit-page.ts:174 | the kind selector lists every kind exactly once, and every tag the registry recognises is among its options |
| Schema.Specs | src/app/components/edit-page/edit-page.ts:91-172 | the registry is total over the kinds; every list is non-empty, names each key once and never uses the reserved key `action` |
| Schema.SpecsOf | src/app/components/edit-page/edit-page.ts:315 | `actionSpecs[type] ?? []` names each key once and never `action`, for any tag |
| Schema.RegistryKeyLists | src/app/components/edit-page/edit-page.ts:91-172 | the ordered field keys of every kind |
| Schema.SharedKeysAgree | src/app/components/edit-page/edit-page.ts:91-172 | a key shared by two schemas names the same field (caption, widget, required flag, options) in both |
| Entries.Params | src/app/components/edit-page/edit-page.ts:318-322 | the params group has exactly the keys of the schema |
| Entries.ParamsSeeded | src/app/components/edit-page/edit-page.ts:319-322 | a non-nullish seed value is kept as it is (0 and "" included); a missing or nullish one becomes null for a number field and "" otherwise |
| Entries.BuildParamsGroup | src/app/components/edit-page/edit-page.ts:314-325 | the loop over the tag's fields builds exactly the params of the schema, seeded field by field |
| Entries.ParamsFixpoint | src/app/components/edit-page/edit-page.ts:314-325 | rebuilding params that already hold exactly the schema's keys with settled values returns them unchanged |
| Entries.ParamsNormalised | src/app/components/edit-page/edit-page.ts:320 | every field a rebuild fills holds a settled value |
| Entries.CreateActionGroup | src/app/components/edit-page/edit-page.ts:327-340 | a created entry keeps the invariant (truthy tag, params keys are the tag's schema keys) |
| Entries.CreateEntry | src/app/components/edit-page/edit-page.ts:327-340 | a created entry is well formed (truthy tag, exactly the schema keys, settled values) and never has an `action` field |
| Entries.CreateEntryShape | src/app/components/edit-page/edit-page.ts:327-340 | the tag is the seed's truthy `action` or TurnOn; each field is seeded from the seed's own property; `action` is never a field |
| Entries.DefaultEntry | src/app/components/edit-page/edit-page.ts:327-339 | an entry created without a seed is TurnOn with an empty device |
| Entries.UnknownTagHasNoFields | src/app/components/edit-page/edit-page.ts:315 | a truthy tag naming no kind gives an entry with no fields |
| Entries.ChangeKindCarriesShared | src/app/components/edit-page/edit-page.ts:342-346 | after a kind change the entry has exactly the new schema's keys; a shared non-nullish value is carried over, a nullish one reset to the default |
| Entries.ChangeKind | src/app/components/edit-page/edit-page.ts:342-346 | the entry after a kind change is well formed and its tag names the new kind |
| Entries.ChangeKindSameKind | src/app/components/edit-page/edit-page.ts:342-346 | changing a settled entry to its own kind changes nothing |
| Entries.ChangeKindIdempotent | src/app/components/edit-page/edit-page.ts:342-346 | a second change to the same kind is a no-op |
| Entries.RouteVideoToTogglePage | src/app/components/edit-page/edit-page.ts:342-346 | RouteVideo to TogglePage shares no key, so page, layer and transition all start as "" |
| Entries.AutoshutdownValidity | src/app/components/edit-page/edit-page.ts:169-171 | a StartAutoshutdown entry is invalid with a null `seconds` and valid with any number, 0 included |
| Entries.Required | src/app/components/edit-page/edit-page.ts:321 | `Validators.required` accepts a value exactly when it is not the empty array and is truthy, `false` or `0` |
| Entries.EntryValidByKind | src/app/components/edit-page/edit-page.ts:93-171 | an entry is valid exactly when the required fields of its kind hold required values: device for TurnOn and TurnOff; device, input and output for RouteVideo; page for the page kinds; seconds for StartAutoshutdown; only the tag for an unknown kind |
| Entries.DefaultEntryInvalid | src/app/components/edit-page/edit-page.ts:93-99 | the default TurnOn entry is invalid until a device is chosen |
| Dates.ParseDate | src/app/components/edit-page/edit-page.ts:422-431 | `parseDate` gives null or a Date |
| Dates.ParseDateCases | src/app/components/edit-page/edit-page.ts:422-431 | null for falsy input, a Date unchanged, null for unreadable input, else a valid Date |
| Dates.ParseDateIdempotent | src/app/components/edit-page/edit-page.ts:422-431 | parsing a parsed value changes nothing |
| Dates.ToIsoOrNull | src/app/components/edit-page/edit-page.ts:433-437 | `toIsoOrNull` gives null or a string |
| Dates.ToIsoCases | src/app/components/edit-page/edit-page.ts:433-437 | null for falsy input or an invalid Date, the ISO text of a valid Date's time value |
| Dates.SaveAfterLoad | src/app/components/edit-page/edit-page.ts:422-437 | formatting a parsed date gives the same text as formatting the stored value directly |
| Context.PageIdsAppend | src/app/components/edit-page/edit-page.ts:284-286 | page ids keep page order across concatenation |
| Context.PageIdsMembers | src/app/components/edit-page/edit-page.ts:284-286 | a value is a page id exactly when it is a truthy `Id` of some page; never more ids than pages |
| Context.DeriveContextShape | src/app/components/edit-page/edit-page.ts:282-294 | device ids are the keys of `Devices` (none when absent), page ids only from an array `Pages`, no layers, transitions None, Fade, Slide |
| Serializer.CreateAll | src/app/components/edit-page/edit-page.ts:308-311 | one entry per record, in record order |
| Serializer.LoadedList | src/app/components/edit-page/edit-page.ts:297-302 | a loaded list is never empty |
| Serializer.Deserialize | src/app/components/edit-page/edit-page.ts:305-311 | an array loads into one well-formed entry per record; anything else loads into no entries |
| Serializer.LoadedListCases | src/app/components/edit-page/edit-page.ts:300-302 | a list that loads empty shows exactly one default TurnOn row; otherwise the loaded rows |
| Serializer.Flatten | src/app/components/edit-page/edit-page.ts:393-397 | one flat `{action, ...params}` record per entry, in list order |
| Serializer.FlatRow | src/app/components/edit-page/edit-page.ts:394-397 | a flat record has the key `action` and the entry's params keys, each param value as it is, and the entry's tag under `action` |
| Serializer.RecordRoundTrip | src/app/components/edit-page/edit-page.ts:393-397 | a canonical stored record loads into an entry that flattens back to it |
| Serializer.RecordFields | src/app/components/edit-page/edit-page.ts:327-339 | a canonical record's tag is kept and its other properties become exactly the entry's params |
| Serializer.EntryRoundTrip | src/app/components/edit-page/edit-page.ts:393-397 | a well-formed settled entry flattens into a record that loads back into it |
| Serializer.FlattenAfterLoad | src/app/components/edit-page/edit-page.ts:393-397 | loading and flattening canonical records reproduces them |
| Serializer.LoadAfterFlatten | src/app/components/edit-page/edit-page.ts:393-397 | flattening and loading well-formed settled entries reproduces them |
| Serializer.StoredAfterLoad | src/app/components/edit-page/edit-page.ts:296-302 | load then save stores the same canonical records, or one TurnOn record with an empty device for an empty list |
| EditPage.ActionList.constructor | src/app/components/edit-page/edit-page.ts:202-203 | an action array starts empty |
| EditPage.ActionList.Clear | src/app/components/edit-page/edit-page.ts:306 | `clear` empties the array |
| EditPage.ActionList.Push | src/app/components/edit-page/edit-page.ts:310 | `push` appends the entry and keeps the invariant |
| EditPage.ActionList.RemoveAt | src/app/components/edit-page/edit-page.ts:371 | `removeAt` removes exactly the row at the index and keeps the others in order; an index past the end removes nothing |
| EditPage.ActionList.Reset | src/app/components/edit-page/edit-page.ts:305-312 | after the reset loop the array holds one entry per record of an array value, none otherwise |
| EditPage.ActionList.SetKind | src/app/components/edit-page/edit-page.ts:342-346 | a kind change rebuilds that row's params from its current values and leaves the other rows alone |
| EditPage.ActionList.SetField | src/app/components/edit-page/edit-page.ts:321 | editing a rendered control changes that one value and keeps the invariant |
| EditPage.PatchedFields | src/app/components/edit-page/edit-page.ts:269-280 | the patched form holds exactly the ten plain controls |
| EditPage.SavedConfigFields | src/app/components/edit-page/edit-page.ts:399-406 | the saved config (`EditPage.SavedConfig`) keeps every plain value except the dates, adds `roomId` and the two lists, and puts the dates in ISO form |
| EditPage.FormValidAfterEdit | src/app/components/edit-page/edit-page.ts:185-189 | editing a control other than campus, building, room and ip leaves the form's validity unchanged; a valid form after editing one of those four holds a required value there |
| EditPage.FormValidRemoveRow | src/app/components/edit-page/edit-page.ts:370-380 | removing an action row from a valid form keeps it valid |
| EditPage.ErrorText | src/app/components/edit-page/edit-page.ts:261 | the message shown is the server's `error.error` when truthy, else the error's `message` when truthy, else the fallback; with a non-empty fallback it is never empty |
| EditPage.SavedConfigActions | src/app/components/edit-page/edit-page.ts:393-406 | the saved action lists load back into the editor's rows; every row an `ActionList` holds is well formed, so this holds for every save |
| EditPage.EmptyListBlocksSave | src/app/components/edit-page/edit-page.ts:300-302 | a list that loads empty keeps the form invalid |
| EditPage.EditPage.constructor | src/app/components/edit-page/edit-page.ts:179-205 | the page starts loading, without error, with the initial form, context and empty action arrays |
| EditPage.EditPage.OnInit | src/app/components/edit-page/edit-page.ts:207-217 | without a route id the page stops with "Missing room id in route."; with one it records the id and starts the fetch |
| EditPage.EditPage.FetchRoom | src/app/components/edit-page/edit-page.ts:233-235 | a fetch sets loading and clears the error |
| EditPage.EditPage.LoadSucceeded | src/app/components/edit-page/edit-page.ts:247-250 | the document's `config`, or an empty object, is applied to the form and loading ends |
| EditPage.EditPage.LoadFailed | src/app/components/edit-page/edit-page.ts:258-263 | a failed fetch shows the server's error, the error message or "Failed to load room config." and loading ends |
| EditPage.EditPage.ApplyConfigToForm | src/app/components/edit-page/edit-page.ts:267-303 | the plain fields are patched, the context derived, and each action array holds the loaded list, padded to one default row when empty |
| EditPage.EditPage.PatchForm | src/app/components/edit-page/edit-page.ts:269-294 | the plain fields become the patched values and the context the derived one; nothing else changes |
| EditPage.EditPage.RebuildActions | src/app/components/edit-page/edit-page.ts:296-302 | each action array holds its loaded list, a default row standing in for an empty one |
| EditPage.EditPage.AddSystemOnAction | src/app/components/edit-page/edit-page.ts:366-368 | appends a default TurnOn row with an empty device |
| EditPage.EditPage.SetPlainField | src/app/components/edit-page/edit-page.ts:185-199 | editing a plain control sets that one value and changes nothing else, keeping the page invariant |
| EditPage.EditPage.RemoveSystemOnAction | src/app/components/edit-page/edit-page.ts:370-372 | removes exactly the row at the index |
| EditPage.EditPage.AddSystemOffAction | src/app/components/edit-page/edit-page.ts:374-376 | appends a default TurnOn row with an empty device |
| EditPage.EditPage.RemoveSystemOffAction | src/app/components/edit-page/edit-page.ts:378-380 | removes exactly the row at the index |
| EditPage.EditPage.OnSave | src/app/components/edit-page/edit-page.ts:386-410 | a request is sent exactly when the form is valid (`EditPage.FormValid`) and no save is in flight; it carries the saved config, whose action lists load back into the page's rows, and marks the save in flight |
| EditPage.EditPage.SaveSucceeded | src/app/components/edit-page/edit-page.ts:411-414 | a successful save ends the save in flight |
| EditPage.EditPage.SaveFailed | src/app/components/edit-page/edit-page.ts:415-418 | a failed save ends the save in flight and shows the server's error, the error message or "Save failed." |
| JsString.Lower | src/app/components/monitor-page/monitor-page.ts:58 | `toLowerCase` keeps the length and lowers each letter A to Z |
| JsString.TrimIsTrimmed | src/app/components/monitor-page/monitor-page.ts:58 | `trim` (`JsString.Trim`) leaves no white space at either end |
| JsString.TrimOfTrimmed | src/app/components/monitor-page/monitor-page.ts:58 | `trim` leaves a trimmed string unchanged |
| JsString.LowerKeepsTrimmed | src/app/components/monitor-page/monitor-page.ts:58 | lowering neither creates nor removes white space at the ends |
| JsString.LowerIdempotent | src/app/components/monitor-page/monitor-page.ts:58 | lowering twice is lowering once |
| JsString.IncludesInfix | src/app/components/monitor-page/monitor-page.ts:110 | `includes` (`JsString.Includes`) holds wherever the string occurs as an infix |
| JsString.IncludesOnlyInfix | src/app/components/monitor-page/monitor-page.ts:110 | `includes` holds only where the string occurs as an infix, so a shown room's haystack really contains the query |
| Sorting.SortCorrect | src/app/components/monitor-page/monitor-page.ts:67 | the comparator sort (`Sorting.Sort`) gives a sorted permutation of its input |
| Sorting.SortStable | src/app/components/monitor-page/monitor-page.ts:67 | the sort is stable: strings the comparator ties come out in their input order |
| MonitorPage.NormIdempotent | src/app/components/monitor-page/monitor-page.ts:57-59 | `norm` (`MonitorPage.Norm`) gives "" for null and undefined, a trimmed string without capitals A to Z, and is idempotent |
| MonitorPage.ConfigField | src/app/components/monitor-page/monitor-page.ts:64 | reading a config field of anything but an object gives undefined |
| MonitorPage.OptionList | src/app/components/monitor-page/monitor-page.ts:61-86 | each option list is the sort of the texts in first-seen order (`MonitorPage.FirstSeen`), so strings the comparator ties stay in first-seen order (`Sorting.SortStable`); it holds, once each and sorted, exactly the strings (`MonitorPage.OptionText`, `String(v)`) of the truthy values of its field across the rooms |
| MonitorPage.FirstSeenMembers | src/app/components/monitor-page/monitor-page.ts:62-66 | the texts the loop collects are distinct and are exactly the `String` of the field's truthy values across the rooms |
| MonitorPage.FilterSubsequence | src/app/components/monitor-page/monitor-page.ts:94-111 | the rooms shown (`MonitorPage.FilteredRooms`) are a subsequence of the loaded rooms; with `FilterCounts` they are exactly the rooms that pass the search, with their multiplicity, in load order |
| MonitorPage.NoFilterKeepsAll | src/app/components/monitor-page/monitor-page.ts:88-111 | with an empty query and empty filters every room is shown |
| MonitorPage.Filter | src/app/components/monitor-page/monitor-page.ts:94-111 | never more rooms than loaded; each shown room is a loaded room that passes the filters |
| MonitorPage.FilterCounts | src/app/components/monitor-page/monitor-page.ts:94-111 | each room is shown exactly as many times as it was loaded when it passes the search, and never otherwise |
| MonitorPage.FilterAppend | src/app/components/monitor-page/monitor-page.ts:94-111 | filtering distributes over concatenation, so load order is kept |
| MonitorPage.FilterSemantics | src/app/components/monitor-page/monitor-page.ts:88-111 | a shown room matches every non-empty filter (`MonitorPage.Keep`); a room matching the filters is shown exactly when the query is empty or occurs in its haystack (`MonitorPage.Haystack`) |
| MonitorPage.QuerySpansFields | src/app/components/monitor-page/monitor-page.ts:109-110 | the query may span fields: campus and building joined by a space always match |
| MonitorPage.RoomsOf | src/app/components/monitor-page/monitor-page.ts:143 | the loaded rooms are the response when it is an array, none otherwise |
| MonitorPage.Monitor.constructor | src/app/components/monitor-page/monitor-page.ts:47-55 | no rooms, not loading, no message, empty search and filters |
| MonitorPage.Monitor.LoadRooms | src/app/components/monitor-page/monitor-page.ts:123-141 | without a token the page shows no rooms and "Not logged in. Please login to view rooms." and sends nothing; with one it starts loading and clears the message |
| MonitorPage.Monitor.Shown | src/app/components/monitor-page/monitor-page.ts:88-111 | the page shows only loaded rooms, and all of them while the search and filters are empty |
| MonitorPage.Monitor.RoomsLoaded | src/app/components/monitor-page/monitor-page.ts:142-145 | a response replaces the rooms and loading ends |
| MonitorPage.Monitor.RoomsFailed | src/app/components/monitor-page/monitor-page.ts:146-158 | a failure ends loading and shows the API error, its message, the error's message or "Failed to load rooms." |

## Left out

- HTTP requests, URLs, the `API_BASE_URL` setting and the Authorization header: requests are modelled as the state change that starts them and the success or failure method the response triggers.
- Navigation (`onCancel`, the move to the monitor after a successful save): the router is outside the model.
- Console logging.
- The try/catch around `applyConfigToForm`: an action tag naming an inherited object member (`toString`, `constructor`, ...) finds a function in the registry, iterating it throws and the message lands in `loadError`; the model reads only own properties, so such a tag is an unknown kind with no fields.
- A non-string tag that converts to a kind name (such as the array `["TurnOn"]`) indexes the registry in the source; the model treats every non-string tag as unknown.
- The option closures of select fields (`getOptionsForField`) and the template helpers `getActionTypeAt` and `getFieldSpecsFor`: fields record only where their options come from; `Schema.SpecsOf` is the lookup these helpers make.
- Object key order: objects are maps, so device ids are a set and the key order of saved records is not modelled.
- JavaScript numbers are integers here: NaN, infinities and fractions are not modelled.
- `new Date(v)` and `toISOString` are parameters of the model (`Dates.DateRuntime`), since their parsing and formatting are runtime-defined.
- Json.ToStr: an object with an own `toString` property that is not a function makes `String(v)` throw in the source; the model gives such an object the text "[object Object]".
- Json.ToStr: integers of magnitude 10^21 or more print in exponent form (`1e+21`) in the source; the model prints every digit.
- Dates.ParseDate: a `new Date(v)` call that throws (an object whose conversion to a primitive throws) is not expressible with `Dates.DateRuntime`, whose `construct` always returns a time value or none.
- MonitorPage.Norm: `String(v)` of a Date object is not modelled, so the monitor operations require room documents without Date values (what a JSON response holds).
- JsString.Lower: lowers only the letters A to Z; Unicode case mapping beyond ASCII is not modelled.
- Sorting.Sort: `localeCompare` is a parameter, required to be a total preorder; locale collation itself is not modelled.
- EditPage.ActionList.RemoveAt: indices are natural numbers; a negative index, which `removeAt` counts from the end, is not modelled.
- Form entries are values: the identity of Angular form groups and their `valueChanges` subscriptions is not modelled; a kind change is the explicit `EditPage.ActionList.SetKind`. A `FormControl` built from a stored value shaped `{value, disabled}` (exactly those two keys) holds `value` instead, and is disabled, so no longer counted for validity, when `disabled` is truthy; the model keeps such a value as it is. For stored records holding one, the round trip and the truthy tag stated above are not promises of the program: `{action: "TurnOn", device: {value: "x", disabled: false}}` is saved back as `{action: "TurnOn", device: "x"}`, and `{action: {value: "", disabled: false}}` gets the tag `""`.
- Entries.CreateEntry: does not unbox a seed value shaped `{value, disabled}` as Angular's form controls do (see the line above); `Serializer.Canonical` and `Entries.Settled` admit such values.
- The `roomTypes` dropdown catalogue and the date pickers are presentation only.
- The other parts of the client (authentication service, login, new-user page, header, routes, room card) are not part of this model.
