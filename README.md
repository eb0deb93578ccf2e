# Beat vault: a verified model of the upload route, the schema, the vault page and the connection cache

The application is a small media vault: producers upload beats (audio file plus
metadata), browse them newest first, edit their fields and delete them. This
project models its four pieces that carry logic:

- **The collection route** (`app/api/beats/route.ts`, module `BeatsRoute`). `GET` returns the stored
  beats ordered by `createdAt` descending and degrades to `200 []` on any failure. `POST` normalises a
  multipart upload: it splits, trims and filters the mood tags, reads `bpm`/`price` as
  `Number(x) || undefined`, turns an empty `key` into an absent one (a whitespace-only key is kept and stored), and names the stored file
  `<now>-<original name>` under `/uploads/`. It answers 400 without a file, 201 with the created record,
  and 500 with the error's message otherwise. The store is a sequence of documents and the upload
  directory a set of file names, both fields of the class `Backend`.
- **The schema** (`models/Beat.ts`, module `BeatSchema`). It states which fields are required, that
  `price` is optional, that `moodTags` is a list, and that `Create` stamps `createdAt = updatedAt`.
- **The vault page state** (`app/page.tsx`, module `VaultPage`). The class `Vault` holds the list, the
  edited row and its form, and the loading/saving/deleting flags. Its methods are start-edit,
  cancel-edit, update (replace by id) and delete (remove by id, leaving the edit of that row). The pure
  conversions beside it are beat to form, form to request body, the tag display string, and the latest
  upload time.
- **The connection cache** (`lib/db.ts`, module `Db`). It checks the connection string first. It starts
  at most one connect and then hands out the same connection. The pure step `Connect` and its lemmas
  over whole runs of calls specify the class `ConnectionCache`, which changes `conn` and `promise` in place.

`Js` holds the JavaScript primitives the code relies on: `trim`, `split`, `join`, `includes`,
`Number(...)` on strings and `toString` of integers. `Wrappers` holds `Option` and `Result`.

Inputs the code receives from the outside become parameters: the clock, the settled outcome of
`mongoose.connect`, whether the file write or the database write fails, the answer to `confirm()`,
and the server's answers to the page's requests. An `await` takes its outcome at once.

Observations the proofs make explicit:
- `POST` connects before it looks at the form, so a bad connection string gives 500, not 400, even
  without a file.
- The file is written before the schema is checked. A form that fails validation leaves its file in the
  upload directory (`Backend.SaveUpload`). So does a form with a file under `moodTags`: that entry is
  truthy, so `split` is called on a file and throws, and the answer is 500 with no record.
- A rejected connect stays cached in `promise`. Every later call fails with the same reason, and no new
  connect is started (`Db.RunAfterRejection`).
- `handleUpdate` treats an empty `editingId` like `null`. A non-numeric `bpm` or `price` reaches the
  server as `null`, because `JSON.stringify(NaN)` is `null`.

A price of `0` is dropped as absent, because `Number(x) || undefined` treats 0 as falsy. A record
failing schema validation is answered with 500, not 400, because the route's single `catch` answers
every thrown error with 500.

## Model

| member | source | states |
|---|---|---|
| `Js.TrimSpec` | app/api/beats/route.ts:51 | `trim` returns a slice of its input with no whitespace at either end, and only whitespace is cut off |
| `Js.Split` | app/api/beats/route.ts:50 | `split(",")` yields at least one piece, no piece holds the separator, and joining the pieces with the separator gives back the input |
| `Js.Includes` | lib/db.ts:20 | `includes(p)` holds exactly when `p` occurs at some index of the string |
| `Js.ParseNumOfIntToString` | app/page.tsx:72-101 | `Number(n.toString()) === n` for every integer, so numbers printed into the edit form (line 72) and read back by `Number` in the update body (lines 99 and 101) come back unchanged |
| `BeatSchema.MissingPaths` | models/Beat.ts:6-12 | the list of missing required paths is empty exactly when title, producerName, bpm, key and audioUrl are all present (non-empty strings for text), and names each required path exactly when it is unset, and nothing else |
| `BeatSchema.Create` | models/Beat.ts:4-15 | creation succeeds exactly when the input is valid; it then stores the input's fields with the given id and `createdAt == updatedAt == now` and is well formed; otherwise it raises a ValidationError naming the missing paths |
| `Db.RunWithUnsetUri` | lib/db.ts:4-24 | with `MONGODB_URI` unset the connection string reads as "", so every call fails with the configuration error, starts nothing and leaves the cache unchanged |
| `Db.Connect` | lib/db.ts:19-36 | the URI check runs first and fails even with a cached connection; a cached `conn` is returned with nothing started; a connect starts exactly when neither `conn` nor `promise` is cached; a resolved promise, new or already cached, is stored in `conn` and returned; after success `conn` is the resolved value of `promise`; a rejection is reported with `conn` left empty; coherence is preserved |
| `Db.RunStartsAtMostOnce` | lib/db.ts:28-32 | over any sequence of calls at most one connect is started, and none once a promise is cached |
| `Db.ConnectsAtMostOnce` | lib/db.ts:12-32 | from the freshly installed `{conn: null, promise: null}` cache, any sequence of calls starts at most one connect |
| `Db.ConnectsOnceThenReuses` | lib/db.ts:19-36 | from the fresh cache with a usable URI, when the first connect resolves to `x`, exactly one connect is started, every call returns `x`, and the cache ends as `{conn: x, promise: x}` |
| `Db.RunWithUnusableUri` | lib/db.ts:20-24 | with an empty or placeholder URI every call fails with the configuration error and the cache never changes |
| `Db.RunAfterConnected` | lib/db.ts:26 | once a connection is cached every later call returns that same connection and nothing changes |
| `Db.RunAfterRejection` | lib/db.ts:28-35 | once a rejected promise is cached every later call fails with its reason and no connect is started |
| `Db.ConnectionCache.constructor` | lib/db.ts:16 | the installed cache is `{conn: null, promise: null}` |
| `Db.ConnectionCache.ConnectToDatabase` | lib/db.ts:19-36 | the call's result and the new `conn`/`promise` are those of `Connect` on the old cache, and coherence is kept |
| `Db.GlobalCache` | lib/db.ts:12-17 | an existing global cache is reused; otherwise a fresh empty one is installed; either way the cache is coherent, so `connectToDatabase` may run on it |
| `BeatsRoute.DropEmpty` | app/api/beats/route.ts:52 | `.filter(Boolean)` keeps exactly the non-empty strings |
| `BeatsRoute.DropEmptyAppend` | app/api/beats/route.ts:52 | filtering keeps order: it filters each part of a concatenation separately |
| `BeatsRoute.ParseTags` | app/api/beats/route.ts:49-52 | every parsed tag is non-empty and equal to its own trim |
| `BeatsRoute.MoodTags` | app/api/beats/route.ts:42-52 | a missing or empty `moodTags` entry gives `[]`; every tag is non-empty and trimmed |
| `BeatsRoute.ParseTagsSegment` | app/api/beats/route.ts:49-52 | segment order is kept: the first segment's tag (if non-empty) precedes the tags of the rest |
| `BeatsRoute.MoodTagsDropsEmptySegment` | app/api/beats/route.ts:49-52 | `"x, y, , z"` parses to `[x, y, z]` for clean tags: the empty segment is dropped and spaces are trimmed |
| `BeatsRoute.MoodTagsOfJoin` | app/api/beats/route.ts:49-52 | parsing the `", "`-join that the page builds (app/page.tsx:74) of trimmed, non-empty, comma-free tags returns exactly those tags |
| `BeatsRoute.NumberOrUndefined` | app/api/beats/route.ts:47 | the value is present exactly when `Number(field)` is a non-zero number, and is then that number; a missing or whitespace-only field reads as 0 and is absent |
| `BeatsRoute.KeyOrUndefined` | app/api/beats/route.ts:48 | `key` is absent exactly when the entry is missing or the empty string, and otherwise is the entry; a whitespace-only key such as " " is kept |
| `BeatsRoute.ToInput` | app/api/beats/route.ts:42-55 | a file entry under `moodTags` is truthy, skips the empty-string default and raises the TypeError "moodRaw.split is not a function", exactly then; otherwise the record handed to `Beat.create` carries the form's title and producer, `bpm`/`price` absent exactly when empty, non-numeric or zero, `key` absent exactly when missing or empty; present `bpm`, `price` and `key` are the values `NumberOrUndefined` and `KeyOrUndefined` give for the entries, the tags are `MoodTags` of the `moodTags` entry (the split/trim/filter chain), and `audioUrl` is the derived URL |
| `BeatsRoute.MissingBpmOrEmptyKeyIsRejected` | app/api/beats/route.ts:47-48 | a form with missing, whitespace-only, non-numeric or zero `bpm`, or missing or empty `key`, cannot be stored: record creation fails with a non-empty message |
| `BeatsRoute.Failed` | app/api/beats/route.ts:58-71 | a caught error becomes 500 with `err.message`, the thrown string itself, or "Failed to upload beat" |
| `BeatsRoute.SortNewestFirst` | app/api/beats/route.ts:11 | the listing holds the same documents as the store, ordered by `createdAt` descending |
| `BeatsRoute.Backend.Get` | app/api/beats/route.ts:8-18 | the status is always 200; any connect or query failure gives `[]`; otherwise the store sorted newest first; every listed beat satisfies the schema (required fields present, `createdAt <= updatedAt`) |
| `BeatsRoute.Backend.Post` | app/api/beats/route.ts:20-72 | a failed connect or unreadable body is reported as 500 with nothing written; without an audio file the answer is 400 "Audio file is required" with no file and no record; a text entry in place of the file fails with 500; otherwise the upload is saved as `SaveUpload` states; the status is one of 201, 400, 500 and the store invariant is kept |
| `BeatsRoute.Backend.SaveUpload` | app/api/beats/route.ts:35-57 | a failed write changes nothing; otherwise the file is kept as `<now>-<name>`, and the record built with `audioUrl = "/uploads/" + fileName` is appended and returned with 201, unless a file under `moodTags` makes `split` throw, validation fails or the store write fails (500, nothing appended, file kept) |
| `VaultPage.EditRoundTrip` | app/page.tsx:67-104 | editing a beat and saving it unchanged sends its own title, producer, bpm, price and audioUrl (absent numbers as `null`), its key or "", and a tag string that parses back to its tags |
| `VaultPage.MoodStringReadsBack` | app/page.tsx:151-154 | missing or empty tags show "No tags"; otherwise the shown `", "`-join parses back to the tags |
| `VaultPage.ReplaceById` | app/page.tsx:113-115 | the list keeps its length and order; exactly the elements whose `_id` matches the response become the response |
| `VaultPage.RemoveById` | app/page.tsx:140 | the remaining beats are exactly those of the list whose `_id` differs from the deleted id |
| `VaultPage.RemoveByIdAppend` | app/page.tsx:140 | removal keeps relative order: it removes from each part of a concatenation separately |
| `VaultPage.RemoveByIdAbsent` | app/page.tsx:140 | removing an id that no beat has leaves the list unchanged |
| `VaultPage.LatestFoldBounds` | app/page.tsx:158-161 | the `reduce` from a non-negative start ends at the start or at some beat's time, and no beat's time exceeds it |
| `VaultPage.LatestBeatDate` | app/page.tsx:156-163 | empty list gives ""; otherwise the result is the greatest `createdAt` over the beats (missing dates count as 0, invalid ones never win), and "" exactly when that maximum is not positive |
| `VaultPage.MessageOr` | app/page.tsx:57 | the shown message (`err.message` when non-empty, else the fallback) is non-empty whenever the fallback is |
| `VaultPage.Vault.constructor` | app/page.tsx:38-44 | empty list, loading, no error, no edit, empty form, not saving or deleting |
| `VaultPage.Vault.BeginFetch` | app/page.tsx:47-48 | loading starts and the error is cleared |
| `VaultPage.Vault.FinishFetch` | app/page.tsx:49-60 | the fetched list replaces the beats, or the error becomes "Failed to fetch beats" or the thrown message (default "Failed to load beats"); loading stops |
| `VaultPage.Vault.FetchBeats` | app/page.tsx:46-61 | a completed fetch leaves the fetched list with no error, or the old list with the error message; loading is off |
| `VaultPage.Vault.StartEdit` | app/page.tsx:67-81 | `editingId` becomes the beat's id and the form is the beat converted to text |
| `VaultPage.Vault.CancelEdit` | app/page.tsx:83-86 | `editingId` is null and the form is the empty form |
| `VaultPage.Vault.HandleUpdate` | app/page.tsx:88-122 | with no edited row (null or "") nothing is sent and nothing changes; otherwise the form's body is sent to the edited id; success replaces by id and cancels the edit; failure keeps the edit and shows the message (default "Failed to update beat") |
| `VaultPage.Vault.ApplyDelete` | app/page.tsx:140-143 | the deleted id's rows are removed, the edit is cancelled if that row was being edited, and the refresh starts |
| `VaultPage.Vault.HandleDelete` | app/page.tsx:124-149 | without confirmation nothing happens; otherwise the trimmed id is sent; success leaves no beat with that id, keeps the others in order, cancels its edit and starts the refresh; failure shows the message (default "Failed to delete beat") |

## Left out

- Rendering: the markup of `app/page.tsx` from line 165 on, `app/layout.tsx`, `components/BeatCard.tsx`, `components/BeatList.tsx` and the upload form `app/upload/page.tsx` only present data and post a form.
- The form `onChange` handlers in the markup are not modelled; the page model only fills the form through `StartEdit` and empties it through `CancelEdit`.
- `app/api/beats/[id]/route.ts` (the server side of update and delete, with its identifier resolution) is not part of this model; the page's requests are outputs and the server's answers inputs.
- `Js.ParseNum` reads only optionally signed decimal integers (and blank as 0); the fractions, exponents, hexadecimal/octal/binary forms and `Infinity` that `Number()` also accepts read as `NaN` here, and numbers are unbounded integers rather than doubles.
- `Js.IntToString` prints plain decimal digits; the exponent form JavaScript uses from 1e21 on is not modelled.
- `Date.now()` and the database's clock are parameters; parsing `createdAt` strings is replaced by the three cases of `CreatedAt`, and `toLocaleString` formatting is left out, so `LatestBeatDate` returns the instant it would format.
- File contents, `path.join` and `process.cwd()` are left out; the upload directory is the set of stored file names.
- A file entry under `title`, `producerName`, `key`, `bpm` or `price` reads as absent in `TextField`. For `bpm` and `price` this matches the code (`Number` of a file is `NaN`, dropped by `|| undefined`); for the three text fields the code hands the file itself to Mongoose, whose casting of it (and cast errors in general) is not modelled. A file under `moodTags` is modelled: it makes `split` throw (`BeatsRoute.ToInput`).
- The ValidationError message follows Mongoose's wording for missing required paths; Mongoose itself is not part of the model, and document identifiers are consecutive numbers instead of ObjectIds.
- `BeatsRoute.SortNewestFirst`: MongoDB does not fix the order of beats with equal `createdAt`; the model picks one, and its contract promises only newest-first order over the same documents.
- Concurrency: requests racing on `cached.promise`, React's batching of state updates and the intermediate `saving`/`deletingId` values during an `await` are not modelled; every `await` resolves at once.
- The refresh `handleDelete` starts without awaiting it is split in two: its synchronous start in `HandleDelete` and its completion as a later `FinishFetch`.
- Logging (`console.error`) and the UI's `confirm()` dialog are left out; the dialog's answer is a parameter.
- The imports in the route (`connectDB`, a default `Beat` export) do not match the names the other files export; the model links them as intended, to `connectToDatabase` and the `Beat` model.
