# MoodTrace stores and reflection builder, modelled in Dafny

MoodTrace is a browser mood journal. Its logic lives in three places:

- the **log store** (`useLogs.js`). It loads the saved entries from local
  storage, drops malformed ones and fills in defaults. It appends, removes by
  id and finds the first entry with an id. It shows the list newest first.
- the **settings store** (`useSettings.js`). It holds one record with the
  OpenAI API key. Any value it is given is coerced into that record.
- the **reflection builder** (`ai.js`). It shortens each field of an entry
  and fills a fixed template with placeholders for empty fields.

The model is functional. Entries are an immutable `seq<LogEntry>`. What
`JSON.parse` returns is a `Json.Value` datatype: null, boolean, integer
number, string, array or object. Reading a storage key and parsing it gives a
`Json.Stored`: `Missing` covers an absent key and an empty string,
`Unparseable` is text the parser rejects, and `Parsed(v)` is a parsed value.
The Vue `watch` that writes storage after every change becomes an explicit
store datatype: the in-memory value together with the stored value. Every
mutation re-encodes the value in the same step (`LogStore.Commit`,
`Settings.UpdateStore`). The load time is the `now` parameter.

Files:

- `wrappers.dfy`: `Option`.
- `json.dfy`: parsed values, plus JavaScript truthiness, `typeof v === 'object'` and property reads.
- `logs.dfy`: entries, decoding and encoding, `addLog`, `removeLog` and `getLog`.
- `log_view.dfy`: the newest-first stable sorted view.
- `log_store.dfy`: the log list together with its stored copy.
- `settings.dfy`: the settings store.
- `reflection.dfy`: `trimText` and `analyzeLog`.

A few behaviours of the code are easy to expect otherwise; the model follows the code:

- `feelings` is a plain string defaulted to `''`. There is no body/mind/legacy tag normalisation.
- `addLog` appends the entry as given. It neither normalises it nor skips a falsy id.
- `analyzeLog` builds its text locally. It sends no HTTP request and raises no error kinds.
- `updateSettings` spreads the sanitised patch, and that patch always carries a key. A patch without a string key therefore clears the stored key instead of leaving it alone.

## Model

| member | source | states |
|---|---|---|
| Logs.DecodeItem | frontend/src/composables/useLogs.js:13-22 | an item survives exactly when it is an object whose `id` is truthy (null, arrays and primitives are dropped); it keeps its id; a stored string field and a non-zero numeric `createdAt` are kept; falsy text fields become `''` and a falsy `createdAt` becomes the load time |
| Logs.DecodeItems | frontend/src/composables/useLogs.js:12-22 | an entry comes out exactly when some array item decodes to it; decoding never adds items; every surviving entry has a truthy id; no item is dropped exactly when every item passes the filter |
| Logs.DecodeItemsAppend | frontend/src/composables/useLogs.js:12-13 | the surviving items keep their original order: decoding maps a concatenation to the concatenation of the decodings |
| Logs.Load | frontend/src/composables/useLogs.js:5-27 | nothing stored, unparseable text and a non-array all give the empty list, never an error; a parsed array gives the decoding of its items, at most as many entries as items, all with truthy ids |
| Logs.DecodeEncodedEntry | frontend/src/composables/useLogs.js:14-22 | a written entry reads back unchanged exactly when its id is truthy and its timestamp is not replaced by the load time; it is dropped exactly when its id is falsy |
| Logs.LoadEncodedIff | frontend/src/composables/useLogs.js:9-22 | writing the list and loading it back gives the same list if and only if every entry round-trips |
| Logs.AddLog | frontend/src/composables/useLogs.js:48-50 | the entry is appended at the end with no id check; the old list is an unchanged prefix |
| Logs.RemoveLog | frontend/src/composables/useLogs.js:52-54 | an entry is kept exactly when it was there and its id differs; when no entry has the id the list is unchanged |
| Logs.RemoveLogAppend | frontend/src/composables/useLogs.js:52-54 | removal keeps the remaining entries in their relative order |
| Logs.GetLog | frontend/src/composables/useLogs.js:56 | nothing is found exactly when no entry has the id; otherwise the result is the entry at the first position carrying the id |
| Logs.RemoveThenGet | frontend/src/composables/useLogs.js:52-56 | after removing an id, looking it up finds nothing |
| Logs.RemoveKeepsOthers | frontend/src/composables/useLogs.js:52-56 | removing one id leaves lookups of every other id unchanged |
| Logs.AddThenGet | frontend/src/composables/useLogs.js:48-56 | an appended entry is found by its id unless an older entry already has that id, and then the older one is still found |
| Logs.AddThenRemove | frontend/src/composables/useLogs.js:48-54 | adding an entry and then removing its id is the same as removing the id |
| LogView.Insert | frontend/src/composables/useLogs.js:43-45 | one insertion step of the sort adds exactly the entry, as a multiset |
| LogView.InsertNewestFirst | frontend/src/composables/useLogs.js:43-45 | inserting into a newest-first list keeps it newest first |
| LogView.InsertStable | frontend/src/composables/useLogs.js:43-45 | inserting keeps the entries of each timestamp in their original order |
| LogView.SortedView | frontend/src/composables/useLogs.js:42-46 | the view is a permutation of the list, ordered non-increasing by `createdAt`; a strictly newer entry always comes first |
| LogView.SortedViewStable | frontend/src/composables/useLogs.js:43-45 | the sort is stable: for every timestamp, the entries with that timestamp appear in insertion order |
| LogView.SortedViewUnique | frontend/src/composables/useLogs.js:42-46 | any newest-first sequence that keeps each timestamp's entries in list order is the view itself |
| LogStore.Open | frontend/src/composables/useLogs.js:29 | start-up leaves storage as it was and holds the list decoded from it, so only entries with truthy ids; anything but a parsed array gives an empty store |
| LogStore.Commit | frontend/src/composables/useLogs.js:31-39 | after a change, storage holds the encoding of the new list |
| LogStore.Add | frontend/src/composables/useLogs.js:48-50 | adding appends the entry and leaves storage in step with memory |
| LogStore.Remove | frontend/src/composables/useLogs.js:52-54 | removing leaves storage in step, and the id is no longer found |
| LogStore.List | frontend/src/composables/useLogs.js:42-46 | the exposed list is a newest-first permutation of the stored entries |
| LogStore.ReopenSynced | frontend/src/composables/useLogs.js:29-39 | reopening a synced store restores its list if and only if every entry round-trips |
| LogStore.FalsyIdLostOnReload | frontend/src/composables/useLogs.js:13 | an entry added with a falsy id stays in memory but is gone after the next start-up |
| Settings.Sanitize | frontend/src/composables/useSettings.js:9-17 | anything but an object gives the defaults (arrays included); an object keeps its key only when the key is a string, and otherwise the key is `''` |
| Settings.Encode | frontend/src/composables/useSettings.js:41 | a written record sanitises back to itself |
| Settings.SanitizeIdempotent | frontend/src/composables/useSettings.js:9-17 | sanitising a sanitised record changes nothing |
| Settings.Load | frontend/src/composables/useSettings.js:19-33 | nothing stored or unparseable text gives the defaults; a parsed value gives its sanitised record spread over the defaults |
| Settings.Update | frontend/src/composables/useSettings.js:48-50 | the key becomes the patch's string key; a patch without one resets the record to the defaults |
| Settings.UpdateIgnoresCurrent | frontend/src/composables/useSettings.js:48-50 | the result of an update does not depend on the current record |
| Settings.Clear | frontend/src/composables/useSettings.js:52-54 | clearing gives exactly the defaults |
| Settings.Open | frontend/src/composables/useSettings.js:35 | start-up leaves storage as it was and holds the record loaded from it: the defaults with nothing parsed, the sanitised value otherwise |
| Settings.UpdateStore | frontend/src/composables/useSettings.js:48-50 | an update leaves storage in step and the record equal to the sanitised patch |
| Settings.ClearStore | frontend/src/composables/useSettings.js:52-54 | clearing leaves storage in step with the defaults |
| Settings.ReopenSynced | frontend/src/composables/useSettings.js:37-45 | whatever was persisted is read back unchanged at the next start-up |
| Settings.ClearThenReopen | frontend/src/composables/useSettings.js:37-54 | after clearing, the next start-up sees the defaults |
| Settings.PatchWithoutKeyClears | frontend/src/composables/useSettings.js:48-50 | a patch with no string key wipes the key, and the next start-up sees it wiped |
| Reflection.TrimText | frontend/src/services/ai.js:3-6 | empty text stays empty, and only empty text gives `''`; text within the limit is returned unchanged; longer text becomes its first `limit` characters plus `…`, of length exactly `limit + 1`; the result is never longer than `limit + 1` |
| Reflection.TrimTextIdempotent | frontend/src/services/ai.js:3-6 | trimming twice with the same limit is the same as trimming once |
| Reflection.ShownFields | frontend/src/services/ai.js:11-28 | each field is trimmed to 100 characters; an empty event shows `这个情境` in the question and `这个事件` in the reflection, empty feelings show `复杂的情绪`, and empty thoughts, behaviors or consequences show `...` |
| Reflection.AnalyzeLog | frontend/src/services/ai.js:8-31 | the text always ends with the fixed closing sentence |
| Reflection.AnalyzeLogLayout | frontend/src/services/ai.js:17-30 | for every entry, the text is the three reflection lines, a blank line, the heading, the four questions as `- ` bullets, a blank line and the closing sentence, joined by newlines |
| Reflection.JoinConcat | frontend/src/services/ai.js:30 | joining two non-empty lists of lines puts exactly one newline between the two joins |
| Reflection.AnalyzeLogLines | frontend/src/services/ai.js:17-30 | for fields without newlines, the text splits into the three reflection lines, a blank line, the heading, the four questions as `- ` bullets in order, a blank line and the closing sentence |
| Reflection.AnalyzeSeesOnlyTrimmed | frontend/src/services/ai.js:11-15 | only the first 100 characters of each field matter: the entry with every field already trimmed gives the same text |

## Left out

- Browser storage access and the `typeof window` guards are left out, because they are browser I/O. Storage is modelled as the `Stored` value that the stores read and write.
- `JSON.parse` and `JSON.stringify` are not modelled as text. The model assumes that parsing stringified output returns the same `Value`. The `console.warn` diagnostics are not modelled either.
- Vue `ref`, `computed` and `watch` are left out. The deep `watch` becomes a write in the same step as each mutation. The watcher's deferred flush is not modelled.
- Date parsing (`new Date(...)`, `toISOString`) is left out. `createdAt` is an integer timestamp, and it is stored as a number. The source evaluates `new Date()` once per item, while the model uses one `now` for the whole load.
- Logs.DecodeItem: a truthy stored `createdAt` that is not a number becomes the load time. The app's own ISO-date strings are an example. The source keeps such a value and parses it when sorting, with `NaN` for invalid dates. That date parsing is outside the model.
- Logs.DecodeItem: a truthy text field that is not a string becomes `''`. The source keeps the raw value, which the string-typed entry cannot hold.
- Logs.RemoveLog: ids are compared by structural equality. This matches `===` and `!==` on the primitive ids the app uses. Object ids, which `===` compares by reference, are not modelled. `Logs.GetLog` compares ids the same way.
- `Json.Value` numbers are integers. Fractional JSON numbers are not modelled.
- Reflection.TrimText: lengths count Unicode characters, not the UTF-16 code units JavaScript counts. Text outside the Basic Multilingual Plane is therefore cut differently. Negative limits are not modelled. The default limit of 80 is modelled as the default value of `limit`. `analyzeLog` always passes 100.
- The `wait` delay and `Math.random` in `analyzeLog` are left out. They only delay the result.
- The router table and the build configuration are left out. They hold no logic of the stores.
- The code has no remote chat-completion client, no typed request errors and no structured `feelings` tags. None of these is modelled.
