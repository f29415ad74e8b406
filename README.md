# data-clone, modelled in Dafny

`WISE.dataClone(obj, depth, refs)` deep-copies a JavaScript object graph
into plain data. The copy can be serialised even when the graph has cycles.
A call does five things:

- It bounds recursion by `MAX_DEPTH`.
- It records, in a `Map`, the dotted path under which each value was first
  met (`self.a.more_b`).
- Beyond the depth limit, it replaces an object by a reference marker built
  from `OBJECT_REFERENCE_FORMAT` (`{object:self.a}`).
- It turns a Date into its ISO string, a RegExp into its text, and an Error
  into a `{name, message}` pair.
- It skips properties by the type test `IGNORE_TYPES` and by the name
  patterns `IGNORE_PROPERTY_NAMES`.

Its configuration lives in fields of the function object, and a call
overwrites an invalid `MAX_DEPTH` with 5. The earlier draft,
`dataClone(obj, filter, depth, refs)`, differs mainly in these ways:

- It has no configuration fields at all. The type test is fixed to
  "function", the marker to `"{" + typeof + ":" + path + "}"` and the root
  label to "self", and nothing checks or overwrites `MAX_DEPTH`.
- `MAX_DEPTH` is fixed at 4.
- It skips the names the caller lists, plus any name starting with "_".
- It has no special forms for built-in objects.
- An object met beyond the limit that was never recorded becomes
  `"[Max clone depth exceeded]"`. A call made without `refs` never produces
  it, because the root is seeded and every copied value is recorded before
  it is entered (`NoFallbackWithoutRefs`).
- Only a missing depth defaults to 1.

Files:

- `js_values.dfy` (module `JsValues`) holds the shared parts:
  - The values a call reads, and the object graph as a map from object
    identities to each object's class and its own enumerable properties in
    `Object.keys` order.
  - The plain data a call returns.
  - `typeof copy[name]` on the copy under construction (`TypeOfSlot`).
  - The `refs` Map, as the class `PathMap`.
- `wise_data_clone.dfy` (module `WiseDataClone`) holds the current version:
  - `CloneAt` and `CloneProps` define one call and its key loop as functions.
  - The class `DataClone` holds the function object's configuration fields.
  - Its method `Clone`, with the `forEach` loop in `CloneKeys`, is proved to
    compute what those functions define. The proof covers the new `refs`
    contents and the `MAX_DEPTH` overwrite.
- `wise_properties.dfy` proves what the current version promises.
- `wise_example.dfy` proves, step by step, the cross-reference scenario that
  ships with the code.
- `draft_data_clone.dfy` and `draft_properties.dfy` do the same for the
  draft.

Three points where the model follows the code rather than the prose
describing it:

- **The type filter reads the copy, not the source value.** Both versions
  test `typeof copy[name]` on the copy being built
  (wise-dataClone.js:97-98, dataClone.js:50). Before assignment that slot is
  always `undefined`. So with the default `IGNORE_TYPES = ["function"]`, a
  function-valued property is copied through, although the doc comment
  (wise-dataClone.js:9-10) says functions are ignored. `FilteringExample` and
  `DraftFilteringExample` prove this on `{_secret: 1, doThing: <function>}`:
  `_secret` is dropped and `doThing` is kept.
- **Paths record the first discovery in depth-first key order.** In the
  cross-reference scenario, `b` is first met as `a.more_b`. Its marker is
  therefore `{object:self.a.more_b}`, which is what test.js:13 expects; it
  is not `{object:self.b}`.
- **The starting value of `MAX_DEPTH` is 4 (wise-dataClone.js:113).** The
  value 5 is only the replacement for an invalid setting
  (wise-dataClone.js:43), although the doc comment calls 5 the default.

## Model

| member | source | states |
|---|---|---|
| JsValues.TypeOfSlot | wise-dataClone.js:97-98 | `typeof copy[name]` on a fresh copy is "undefined" for every name not assigned yet |
| JsValues.TypeOf | wise-dataClone.js:56 | `typeof`: "object" exactly for objects and `null`, "function" exactly for functions, "undefined" exactly for `undefined`; definition used by both filters and both depth checks |
| JsValues.PathText | wise-dataClone.js:104 | `refs.get(v)` under string concatenation: the recorded path when `v` is recorded, "undefined" otherwise |
| JsValues.PathMap.constructor | wise-dataClone.js:46 | a new Map is empty |
| JsValues.PathMap.Has | wise-dataClone.js:103 | `refs.has(v)` holds exactly when `v` is a key |
| JsValues.PathMap.Get | wise-dataClone.js:50 | `refs.get(v)` gives the stored path of a key and nothing for a non-key |
| JsValues.PathMap.Set | wise-dataClone.js:104 | `refs.set(v, p)` maps `v` to `p` and leaves every other entry alone |
| WiseDataClone.CheckedMaxDepth | wise-dataClone.js:41-44 | the checked MAX_DEPTH is a number of at least 1; it is left alone exactly when it was already valid, and otherwise becomes 5 |
| WiseDataClone.StartDepth | wise-dataClone.js:52-54 | the working depth is at least 1: a given depth of at least 1 is kept, and a missing or smaller one becomes 1 |
| WiseDataClone.Matches | wise-dataClone.js:99-101 | `new RegExp(p).test(name)` for the three supported pattern forms; a prefix match means the name begins with the prefix; definition, with `UnderscorePattern` for the default pattern |
| WiseDataClone.ReplaceFirst | wise-dataClone.js:70 | `format.replace("%s", text)`: the result is either the format unchanged or the format with one two-character "%s" replaced by `text`; `ReplaceFirstAt` and `ReplaceFirstAbsent` say which |
| WiseDataClone.Normalize | wise-dataClone.js:57-66 | exactly a Date, a RegExp or an Error has a plain form, and that form is a string or a name/message pair, never a copy; used within and beyond the limit (`BuiltInsNormalized`) |
| WiseDataClone.Ignored | wise-dataClone.js:96-101 | the skip test of the key loop; for a name not yet assigned on the copy it holds exactly when "undefined" is an ignored type or the name matches an ignored pattern |
| WiseDataClone.Beyond | wise-dataClone.js:55-74 | the result beyond MAX_DEPTH is never a copy, and is the value itself exactly when it is neither an object nor `null`; its cases are `ObjectBeyondDepth`, `NullBeyondDepth`, `BuiltInsNormalized` |
| WiseDataClone.CloneAt | wise-dataClone.js:37-111 | one recursive call: it yields a copy exactly when the value is an ordinary object or array within the limit, an array exactly for an array, with at most as many fields as own keys, and leaves `refs` alone otherwise; its properties are `ExpandedCopy`, `ClonePreservesPaths`, `CloneLevels` |
| WiseDataClone.CloneProps | wise-dataClone.js:94-108 | the key walk keeps the fields already assigned as a prefix and assigns at most one field per key; its properties are `PropsNames`, `PropsPreservePaths`, `FirstDiscoveryRecorded`, `PropsLevels` |
| WiseDataClone.DataCloneCall | wise-dataClone.js:37-54 | a call copies exactly when its argument is an ordinary object or array and its working depth is within the limit, and leaves a given `refs` alone otherwise; `RootRecordedAsSelf` gives the seeding |
| WiseDataClone.DataClone.constructor | wise-dataClone.js:113-117 | the function object starts with MAX_DEPTH 4, IGNORE_TYPES ["function"], IGNORE_PROPERTY_NAMES [/^_/], format "{object:%s}" and SELF "self" |
| WiseDataClone.DataClone.Clone | wise-dataClone.js:37-111 | a call returns the clone defined by the call's specification, leaves `refs` holding exactly that call's recorded paths, overwrites an invalid MAX_DEPTH with 5 and changes no other setting |
| WiseDataClone.DataClone.CloneKeys | wise-dataClone.js:94-108 | the key loop yields the copied fields and the path map of the key walk's specification, and leaves the settings unchanged |
| WiseDataClone.DataClone.VisitKey | wise-dataClone.js:95-107 | the `forEach` callback for one key advances the key walk of the specification by exactly that key: skip, or record when new and assign the clone one level deeper |
| WiseDataClone.DataClone.Settings | wise-dataClone.js:41-44 | the configuration a call reads, with MAX_DEPTH as the check leaves it, which is at least 1 |
| WiseProperties.ReplaceFirstAt | wise-dataClone.js:70 | `format.replace("%s", text)` replaces the first occurrence of "%s", and only that one |
| WiseProperties.ReplaceFirstAbsent | wise-dataClone.js:70 | a format without "%s" is returned unchanged |
| WiseProperties.DefaultReferenceFormat | wise-dataClone.js:70 | the default format gives `{object:<path>}` |
| WiseProperties.CheckIsStable | wise-dataClone.js:41-44 | checking MAX_DEPTH twice changes nothing more than checking once, and the starting value 4 passes the check |
| WiseProperties.NonObjectsPassThrough | wise-dataClone.js:72-76 | a number, string, boolean, `undefined` or function is returned unchanged at any depth, and so is `null` within the limit; `refs` is unchanged |
| WiseProperties.NullBeyondDepth | wise-dataClone.js:55-70 | beyond the limit `null` counts as an object and becomes the reference format filled with its recorded path |
| WiseProperties.BuiltInsNormalized | wise-dataClone.js:57-89 | a Date becomes its ISO string, a RegExp its text and an Error a `{name, message}` pair, within and beyond the limit, and `refs` is unchanged |
| WiseProperties.ObjectBeyondDepth | wise-dataClone.js:55-70 | beyond the limit an ordinary object or array is not entered: it becomes the format with its recorded path, `{object:<path>}` by default |
| WiseProperties.ClonePreservesPaths | wise-dataClone.js:103-106 | `refs` is write-once: no call removes or overwrites an entry |
| WiseProperties.PropsPreservePaths | wise-dataClone.js:95-108 | the key loop only adds entries to `refs` |
| WiseProperties.FirstDiscoveryRecorded | wise-dataClone.js:103-106 | a kept property whose value is not yet recorded is recorded as parent path + "." + name, and that path survives the rest of the walk |
| WiseProperties.RootRecordedAsSelf | wise-dataClone.js:45-48 | a call without `refs` records the root under SELF, and the root keeps that entry |
| WiseProperties.KeptNamesAreKeys | wise-dataClone.js:94-108 | every kept name is an own key of the source, and every own key that passes both filters is kept |
| WiseProperties.UnderscorePattern | wise-dataClone.js:115 | the default pattern /^_/ matches exactly the names whose first character is "_" |
| WiseProperties.DefaultKeptNames | wise-dataClone.js:97-101 | with the default settings, exactly the keys not starting with "_" are kept, in key order |
| WiseProperties.PropsNames | wise-dataClone.js:95-108 | with distinct keys the copy's names are the names already assigned followed by the kept names, in `Object.keys` order |
| WiseProperties.ExpandedCopy | wise-dataClone.js:90-108 | within the limit an array becomes an array and any other ordinary object a bag, each holding exactly the kept names of its own keys, in key order |
| WiseProperties.CloneLevels | wise-dataClone.js:52-106 | a value cloned at depth d holds at most MAX_DEPTH + 1 - d levels of copies, and none beyond the limit |
| WiseProperties.PropsLevels | wise-dataClone.js:95-108 | every field the key loop assigns holds at most MAX_DEPTH - d levels of copies |
| WiseExample.ExampleA | test.js:2-11 | at depth 2, `a` is copied with `a1` and `a2` literal, and `more_b` becomes `{object:self.a.more_b}`, the path under which `b` was recorded |
| WiseExample.ExampleB | test.js:6-12 | at depth 2, `b` is copied with `b1` literal, `b2` as the Date's ISO string and `more_a` as `{object:self.a}` |
| WiseExample.ExampleClone | test.js:1-20 | with MAX_DEPTH 2, the clone of the scenario equals the expected output |
| WiseExample.ExampleRun | test.js:19-23 | setting MAX_DEPTH to 2 on a fresh function object and calling it on the root returns the expected output |
| WiseExample.FilteringExample | wise-dataClone.js:95-101 | with the default filters, `_secret` is dropped and a function-valued `doThing` is copied through |
| DraftDataClone.FirstDepth | dataClone.js:32 | only a missing depth defaults to 1, and any given depth is used as it is |
| DraftDataClone.FilterOf | dataClone.js:31 | a missing filter is the empty list |
| DraftDataClone.Copied | dataClone.js:50 | the copy test; for a name not yet assigned on the copy it holds exactly when the name neither starts with "_" nor is in the filter, so function values pass |
| DraftDataClone.DraftBeyond | dataClone.js:34-44 | beyond depth 4 a value is returned as it is exactly when it is neither an object nor `null`; otherwise it is a string, the fixed marker exactly when the value is unrecorded; `DraftBeyondDepth` spells out the marker |
| DraftDataClone.DraftCloneAt | dataClone.js:15-60 | one recursive call: it yields a copy exactly when the value is an object within depth 4, an array exactly for an array, with at most as many fields as own keys, and leaves `refs` alone otherwise; its properties are `DraftExpandedCopy`, `DraftKeepsPaths`, `DraftLevels` |
| DraftDataClone.DraftCloneProps | dataClone.js:47-57 | the key walk keeps the fields already assigned as a prefix and assigns at most one field per key; its properties are `DraftPropsNames`, `DraftPropsKeepPaths`, `DraftFirstDiscovery` |
| DraftDataClone.DraftCall | dataClone.js:15-32 | a call copies exactly when its argument is an object and its depth is at most 4, and leaves a given `refs` alone otherwise; `DraftRootSeeded` gives the seeding |
| DraftDataClone.DataClone | dataClone.js:15-60 | a call returns the clone defined by the draft's specification, and leaves `refs` holding exactly that call's recorded paths |
| DraftDataClone.DraftKeys | dataClone.js:47-57 | the key loop yields the copied fields and the path map of the draft's key walk |
| DraftDataClone.DraftVisitKey | dataClone.js:48-56 | the `forEach` callback for one key advances the draft's key walk by exactly that key: skip, or record when new and assign the clone at `subDepth` |
| DraftProperties.DraftNonObjectsPassThrough | dataClone.js:41-45 | a non-object is returned unchanged at any depth, and so is `null` within the limit |
| DraftProperties.DraftBeyondDepth | dataClone.js:34-44 | beyond depth 4 a recorded object or `null` becomes `{object:<path>}` and an unrecorded one `"[Max clone depth exceeded]"` |
| DraftProperties.BuiltInsBecomeBags | dataClone.js:45-47 | within the limit a Date, RegExp or Error becomes a bag of its own keys, an empty bag when it has none |
| DraftProperties.DraftKeepsPaths | dataClone.js:51-55 | `refs` is write-once: no call removes or overwrites an entry |
| DraftProperties.DraftPropsKeepPaths | dataClone.js:48-57 | the key loop only adds entries to `refs` |
| DraftProperties.DraftFirstDiscovery | dataClone.js:51-53 | a copied property whose value is not yet recorded is recorded as parent path + "." + name, and keeps it |
| DraftProperties.DraftRootSeeded | dataClone.js:23-27 | a call without `refs` records the root as "self", and the root keeps that entry |
| DraftProperties.AtNoFallback | dataClone.js:34-55 | a call on a value already in `refs` never yields `"[Max clone depth exceeded]"` anywhere in its result |
| DraftProperties.PropsNoFallback | dataClone.js:48-57 | the key loop records each copied value before cloning it, so no field it assigns holds the fixed marker |
| DraftProperties.NoFallbackWithoutRefs | dataClone.js:23-27 | a call without `refs` seeds the root as "self", so the fixed marker appears nowhere in its result |
| DraftProperties.DraftPropsNames | dataClone.js:48-57 | with distinct keys the copy's names are the names already assigned followed by the keys that neither start with "_" nor are in the filter |
| DraftProperties.DraftExpandedCopy | dataClone.js:45-57 | within the limit any object becomes an array or a bag holding exactly the kept names of its own keys, in key order |
| DraftProperties.DraftKeptUnderscoreFree | dataClone.js:50 | without a filter, the draft keeps exactly the keys not starting with "_" |
| DraftProperties.DefaultFiltersAgree | dataClone.js:50 | without a filter, the draft keeps the same names as the current version with its default settings |
| DraftProperties.DraftLevels | dataClone.js:34-55 | a value cloned at depth d holds at most 5 - d levels of copies, and none beyond depth 4 |
| DraftProperties.DraftPropsLevels | dataClone.js:48-57 | every field the key loop assigns holds at most 4 - d levels of copies |
| DraftProperties.DraftFilteringExample | dataClone.js:31-50 | without a filter, `_secret` is dropped and a function-valued `doThing` is copied; listing "doThing" in the filter drops it too |

## Left out

- `console.warn` on an invalid MAX_DEPTH (wise-dataClone.js:42): output only. The overwrite itself is modelled.
- Regular expressions in IGNORE_PROPERTY_NAMES: only three forms are modelled, a prefix (`/^p/`), a substring (`/p/`) and an exact name (`/^p$/`). The default `/^_/` is one of them.
- `String.prototype.replace` patterns such as `$&` inside the path text: the model substitutes the path literally.
- A MAX_DEPTH or depth that is not an integer (NaN, Infinity, fractions, strings that compare as numbers): MAX_DEPTH is a value that is either an integer or something else, and depth is an optional integer.
- Date formatting and the RangeError of `toISOString()` on an invalid Date: the ISO text is part of the object's class, and a call never fails.
- RegExp and Error internals: the text, name and message are given as part of the object's class.
- Arrays with non-index own keys, getters, proxies, symbols and prototype lookups on the fresh copy: objects are their class plus a list of own enumerable data properties, and a fresh array is taken to have no property under any own key.
- Sharing of the function object's configuration between concurrent callers: each call reads the fields once, at entry.
- Object identity of the results: the copy is a value, so "a fresh object" is not distinguished from an equal one.
- Re-cloning a clone (idempotence of the output structure): not stated, because a clone is plain data of a different type from the object graph, and the model has no conversion that puts a clone back into a heap.
- build.py is not part of this model (it only packages the files).
