# Resume page and resume API: a Dafny model

This project models the two pieces of logic in a personal resume site.

**The resume API server (`app.py`).** A set of Flask handlers keeps one JSON
document in `data/resume.json`. The document holds a `personal` record, four
id-keyed lists (`skills`, `education`, `experience`, `achievements`) and a
string list `interests`. Each request loads the file; each changing request
then changes the document in memory and saves it. The model is the class `ResumeApi.ResumeStore`: its field
`file` is what the data file holds, and there is one method per handler and
verb. Each method states its status code (200, 201, 400, 404 or 500) and the
new content of the file in terms of the old one. The file changes only when
the save succeeds. The handlers for the four lists are copies of one another
and differ only in the key and the required fields. One method parameterised
by `Section` models all four.

**The page script (`js/app.js`).** The page fetches the document from the API.
If that fails it fetches a static copy, and if that fails too it shows an
error banner. It then binds each section of the document to a mount point in
the page template. The model has three modules:
- `Binding` holds the imperative part: the mount points (`Mount`, a list of
  children plus a `hidden` flag), the network, `LoadData`, the `Fill*`
  binders and `Init`.
- `Render` holds the pure derivation of each item's text: the skill bar
  width, the timeline title and meta line, the certificate meta line, and
  contact links.
- `Seqs` holds the sequence operations behind them: `forEach`-append,
  the `a || b || …` default chain, and `filter(Boolean).join(sep)`.

Conventions and resolved points:
- The server's JSON numbers are integers (`Json.Value`). The page reads
  every text field through `||`, so a missing field and `""` are the same
  there, and text fields of the page's document are plain strings with `""`
  for absent.
- A Python exception the handler does not catch, such as a non-numeric id
  reaching `max(...) + 1`, `'name' in 5`, or PATCH on a missing `personal`,
  is modelled as status 500 with the file unchanged. That is what Flask
  answers.
- The `load_data` error dict is modelled as a document whose other
  top-level keys include `"error"`. So a stored document that itself has a
  top-level `"error"` key is refused with 400 as well, as in the code.
  `GET /api/personal` does not check for the error and answers 200 with `{}`.
- In every item handler the PUT branch merges, exactly like PATCH. In the
  skill handler that branch carries the comment "Replace entire skill"; the
  education, experience and achievement handlers have no comment there. The
  model follows the code: `UpdateItem` merges for both verbs.
- `Document` has a field for each key the handlers read (`personal`, the
  four lists, `interests`) and keeps every other top-level key in `others`.
  A well-formed document never has one of the named keys in `others`; the
  type does not enforce this, and no handler puts one there.
- Distinct ids are not an invariant of the store. POST keeps the ids of a
  list distinct (`PostKeepsIdsDistinct`), but a PUT or PATCH body carrying
  `"id"` is merged like any other key and can create a duplicate id, in
  the code and in `UpdateItem` alike.

## Model

| member | source | states |
|---|---|---|
| `Json.In` | app.py:78 | Python `key in v`: key test on a dict, element test on a list, substring test on a string; raises (None) exactly on null, booleans and numbers |
| `ResumeApi.LoadData` | app.py:13-21 | a handler sees a failed load exactly when the file is missing or corrupt or the stored document has an "error" key; the error dict has no personal record, empty item lists and no interests |
| `ResumeApi.Document.WithList` | app.py:85-86 | assigning one list sets that list and leaves the other lists, personal, interests and other keys unchanged |
| `ResumeApi.NextId` | app.py:83 | returns an id exactly when every id (missing counted as 0) is numeric; it is greater than every existing id, one more than the largest, and 1 for an empty list |
| `ResumeApi.NextIdIsUnique` | app.py:83 | the max-plus-one condition determines the new id uniquely |
| `ResumeApi.NextIdIsFresh` | app.py:83 | the new id equals no existing id, so no existing item matches it in a lookup |
| `ResumeApi.PostKeepsIdsDistinct` | app.py:81-86 | a POST, which appends an item under the new id, keeps the ids of a list with distinct ids pairwise distinct (a PUT or PATCH may not) |
| `ResumeApi.FindFirst` | app.py:101 | returns the index of the first item whose id equals the requested id, and none exactly when no item matches |
| `ResumeApi.CreatedItemIsFound` | app.py:83-86 | after a POST, a lookup of the new id finds the appended item at the end of the list |
| `ResumeApi.RemoveFirst` | app.py:110 | `list.remove` of a present element shortens the list by one |
| `ResumeApi.RemoveFirstDropsFirstOccurrence` | app.py:110 | `list.remove(x)` drops the first structurally equal item and keeps all other items, in order (Python's `==`, where `1 == True`, is not reproduced; at the only call site no earlier item can be Python-equal, since it would have matched the id first) |
| `ResumeApi.RemoveFirstAt` | app.py:110 | when item i is the first occurrence of x, `list.remove(x)` drops exactly index i and keeps every other item in order |
| `ResumeApi.RemoveFoundItem` | app.py:101-111 | removing the found item by value drops exactly its index and keeps every other item in order |
| `ResumeApi.Merge` | app.py:122-127 | `dict.update`: keys of the update take its values, every other key keeps its old value, no key is lost |
| `ResumeApi.HasRequired` | app.py:76-79 | a dict body passes validation exactly when it has name and level (skill), institution and degree (education), company or project (experience), title (achievement); the test raises only on null, boolean or number bodies |
| `ResumeApi.AppendAbsentKeepsNoDuplicates` | app.py:347-350 | appending a name only when absent keeps a duplicate-free interest list duplicate-free |
| `ResumeApi.ResumeStore.Save` | app.py:23-31 | a successful save makes the file hold the document; a failed one leaves it unchanged |
| `ResumeApi.ResumeStore.GetPersonal` | app.py:41-43 | answers 200 with the personal record, or with `{}` when there is none or the load failed |
| `ResumeApi.ResumeStore.UpdatePersonal` | app.py:45-64 | 400 on a failed load or an empty body (Python falsiness, `Json.Truthy`); PUT replaces the record, PATCH merges into it (500 when the record is absent or not a dict); 500 and no change when the save fails |
| `ResumeApi.ResumeStore.GetList` | app.py:66-74 | 400 after a failed load, else 200 with the section's list |
| `ResumeApi.ResumeStore.PostItem` | app.py:66-91 | 400 for a failed load, a falsy body (`Json.Truthy`) or a missing required field, with no change; otherwise the body with the next id is appended at the end, the earlier items unchanged and in order; 201 only when saved (same for education 144-159, experience 210-225, achievements 276-291) |
| `ResumeApi.ResumeStore.GetItem` | app.py:93-107 | 400 after a failed load, 404 when no item has the id, else 200 with the first item that has it (same for lines 161-175, 227-241, 293-307) |
| `ResumeApi.ResumeStore.DeleteItem` | app.py:109-115 | removes exactly the first item with the id, others keep their order; 400/404/500 leave the file unchanged |
| `ResumeApi.ResumeStore.UpdateItem` | app.py:117-132 | PUT and PATCH both merge the body into the first item with the id and change no other item; 404 before the body check, 400 for an empty body |
| `ResumeApi.ResumeStore.GetInterests` | app.py:339-340 | 400 after a failed load, else 200 with the interests |
| `ResumeApi.ResumeStore.PostInterest` | app.py:342-357 | appends the name and answers 201 only when it is not already listed; a duplicate gives 400 with no change |
| `ResumeApi.ResumeStore.PutInterests` | app.py:359-368 | a non-empty list replaces the interests wholesale; anything else gives 400 with no change |
| `Seqs.MapSeq` | js/app.js:219-232 | one child per input item |
| `Seqs.MapSeqSnoc` | js/app.js:219-232 | rendering one more item appends exactly one more child at the end |
| `Seqs.MapSeqAt` | js/app.js:219-232 | the child at position k is the rendering of input item k (order preserved) |
| `Seqs.FirstNonEmpty` | js/app.js:262 | the JavaScript default chain `a or b or c` yields "" exactly when all are empty, else some element preceded only by empty ones |
| `Seqs.FirstNonEmptyAt` | js/app.js:262 | when item i is the first non-empty one, the chain yields it |
| `Seqs.FirstNonEmptyPair` | js/app.js:148 | the default `a or b` is a unless a is empty |
| `Seqs.NonEmpty` | js/app.js:270 | `filter(Boolean)` keeps exactly the non-empty strings of the list (a string is in the result iff it is non-empty and in the input) and never lengthens the list |
| `Seqs.NonEmptyAppend` | js/app.js:270 | filtering a concatenation is the concatenation of the filtered parts, so the kept strings stay in input order |
| `Seqs.NonEmptySingle` | js/app.js:270 | a one-element list is kept exactly when its element is non-empty |
| `Seqs.JoinNonEmptyPair` | js/app.js:266-271 | `Seqs.Join` (`join(sep)`) of two filtered parts puts the separator only between two non-empty parts |
| `Render.ContactRowOf` | js/app.js:182-204 | label text is label + ":"; a link exactly when href is set, whose text is the value or else the href and is never empty; otherwise plain text with the value |
| `Render.SkillWidth` | js/app.js:242 | the bar width lies in [0,100], equals a level inside that range and is 0 below, 100 above |
| `Render.SkillRowOf` | js/app.js:224-242 | a skill row shows the skill's name and a bar width within [0,100] that equals the level when the level is in range |
| `Render.TimelineTitle` | js/app.js:260-263 | the title of `Render.TimelineRowOf` is the first non-empty of institution, company, project, else "" |
| `Render.TimelineMetaParts` | js/app.js:264-272 | the meta of `Render.TimelineRowOf` is the date range (`Render.DateRange`) alone or degree/role, a vertical-bar separator, and the range; the range is never empty and ends in the end date or "Present" |
| `Render.CertificateMeta` | js/app.js:312-315 | issuer and date joined by " • ", an absent part dropped without a separator |
| `Render.CertificateCard` | js/app.js:303-325 | a card gets a link, showing the link itself, exactly when the certificate has one |
| `Render.AchievementCard` | js/app.js:390-412 | a card gets a "View Profile" link exactly when the achievement has one |
| `Binding.Mount.Clear` | js/app.js:218 | clearing a list empties it and leaves the section's visibility alone |
| `Binding.Mount.Append` | js/app.js:232 | appending adds one child at the end |
| `Binding.AppendEach` | js/app.js:219-248 | the `forEach` appends one rendered child per item, in input order, after the existing ones |
| `Binding.FillPersonal` | js/app.js:141-214 | absent record changes nothing; otherwise name and title default to a dash, summary to "", avatar set only when given, one contact row per contact in order |
| `Binding.FillSkills` | js/app.js:216-249 | the list is replaced by one row per skill in order; visibility untouched |
| `Binding.FillTimeline` | js/app.js:251-289 | the list is replaced by one row per entry in order; visibility untouched |
| `Binding.FillCertificates` | js/app.js:291-342 | cleared first; hidden with no children exactly when the input is empty, otherwise one card per certificate in order |
| `Binding.FillAchievements` | js/app.js:378-429 | same hiding rule; one card per achievement in order |
| `Binding.FillInterests` | js/app.js:344-376 | same hiding rule; one chip per interest in order |
| `Binding.Network.Fetch` | js/app.js:100-102 | a fetch records its URL and yields that URL's outcome |
| `Binding.LoadData` | js/app.js:96-131 | resolves to `Binding.Loaded`: primary data when usable, with no fallback fetch; otherwise exactly one fallback fetch; when both fail the result is null and one error banner is appended |
| `Binding.Init` | js/app.js:506-535 | with no data no section changes; one error banner is appended to the header exactly when neither source is usable, so a usable source with a falsy JSON body (`null`, `false`, `0`, `""`) stops `init` with no banner and no section changed; otherwise personal, skills, education, experience, achievements and interests each show their binder's result; the avatar is kept when the loaded record has none; the contacts, skills, education and experience keep their visibility; certificates are never bound; the fetches are those of `LoadData` |

## Left out

- Presentation effects carry no data contract and are not modelled. These
  are the theme toggle and `localStorage`, particles, ripples, the typing
  effect, scroll observers, hover handlers, dynamic CSS, the loading class
  on cards, and every `setTimeout`, `requestAnimationFrame` and inline style
  except the skill bar width (see the `Binding.FillSkills` line).
- Binding.FillSkills: the bar width in each skill row is the value that the
  deferred callback (`setTimeout` then `requestAnimationFrame`,
  js/app.js:235-246) eventually writes to `bar.style.width`. The model gives
  it as already set when the binder returns; the delay and the moment at
  which the width appears are not modelled.
- The 800 ms delay after a primary load and the transport itself are left
  out: a fetch is an abstract outcome per URL.
- DOM specifics are left out: `querySelector`, `innerHTML`, anchor
  `target`/`rel`, and the click handler that calls `window.open`.
- Binding.Init: states the final state of every mount point but not the
  order in which the binders run. Each binder writes only its own mount
  point, so the order leaves no trace in the model's state.
- Floating-point numbers are not modelled, on either side. JavaScript's
  `Number()` of a non-numeric string (NaN) is not modelled either: a skill
  level is an integer.
- The page's document is typed. A JSON value that is truthy but not an
  object is treated like a document with every section absent, which is
  what the script does with it.
- Flask routing, CORS, `jsonify` and message texts are not modelled: a
  handler answers a status code and, for reads, the data. A request body is
  its parsed JSON value, with a missing or unparsable body taken as `null`.
- Flask's own 415/400 for a non-JSON content type is not modelled.
- `GET /api/db`, the health check with its timestamp, and the start-up
  prints are not modelled.
- ResumeApi.ResumeStore.UpdatePersonal: a body that is a list of key/value
  pairs, which `dict.update` also accepts, is answered 500 here.
- ResumeApi.ResumeStore.UpdateItem: a body that is a list of key/value
  pairs, which `item.update` also accepts (app.py:124), is answered 500 here.
- ResumeApi.ResumeStore.Save: a write that fails halfway and leaves a
  truncated file is not modelled. A failed save leaves the file as it was.
- File I/O and JSON encoding are left out. The file is one of missing,
  corrupt or a stored document, and the outcome of a save is a parameter.
- ResumeApi.ResumeStore.PostInterest: the duplicate test compares JSON
  values structurally, so Python's `1 == True` is not reproduced. The lookup
  by id does treat `True` as 1.
- Concurrent requests are not modelled. `app.run` (app.py:390) starts
  Flask's development server, which serves requests in threads, and each
  handler loads, changes and saves the file without a lock. Two POSTs at
  once can compute the same next id, and one save can overwrite another.
  The model runs each request on its own, so `PostKeepsIdsDistinct` holds
  only for requests served one after another.
- A data file whose top-level JSON value is not an object is not modelled:
  `FileState` holds only an object document. In the code, a top-level list
  or `null` makes `data.get` or `'error' in data` raise (500), and a
  top-level string containing "error" passes `'error' in data` as a
  substring test (400).
- A file that exists but cannot be read or decoded (`PermissionError`,
  `UnicodeDecodeError`) escapes the two `except` clauses of `load_data`
  (app.py:16-21) and gives 500; the model's file is only missing, corrupt
  or stored.
- The page's failure on malformed data is not modelled. A `null` contact or
  list item throws at its first field access (`c.label`, js/app.js:182), and
  a list-valued field holding something other than an array throws at
  `.forEach` (js/app.js:219, 254, 303, 356, 390). Either stops `init`, so the sections
  after it are never bound. The model's page document is typed, so every
  binder runs.
- Server-side list elements that are not JSON objects, and list-valued keys
  holding something other than a list, are not modelled. An absent list
  key is read as an empty list, as `data.get(key, [])` does.
