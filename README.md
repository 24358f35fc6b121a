# protectedvault, modelled in Dafny

protectedvault is a small web application with private vaults. A vault is
named by an id and guarded by a password. Inside a vault there is a quick pad
and a list of structured notes and PDF files. The backend is an Express
server over a Supabase database and storage bucket. It recompresses the
images of every uploaded PDF before storing it. The frontend is a React
single-page client.

This project models:

- the PDF image recompression engine (`PdfCompress`);
- the authentication middleware (`Auth`);
- the vault endpoints (`VaultRoutes`) and the file endpoints (`FileRoutes`);
- the client's API layer (`Api`);
- the access page (`VaultAccess`), the dashboard and its change-password
  dialog (`VaultDashboard`), the file list (`StructuredNotes`), the sidebar
  (`Sidebar`) and the page shell (`App`).

Two helper modules support them. `Wrappers` holds `Option`. `JsText` holds
the JavaScript string behaviour the code relies on: `trim` with ECMAScript's
whitespace set, the decimal rendering of integers in template literals,
`startsWith`, `endsWith`, `lastIndexOf`, UTF-16 `length` and truthiness.

Each server handler is a method over a class that holds the database (a
`Database` of vault hashes and quick pads, a `FileStore` of file rows and
bucket objects). It returns the JSON reply. Every library the code calls is
a parameter of the method that calls it:

- sharp and zlib form a `Codecs` value whose functions answer `None` where
  the library throws;
- bcrypt and token signing form a `Crypto` value;
- `jwt.verify` is a function from token to vault id;
- database errors, the uuid, the clock and the compressor's answer are
  explicit inputs.

Each React component is a class whose fields are its state, and each handler
is a method. The answer of the API call a handler makes is a parameter
(`ApiReply`: the parsed JSON, or the thrown error's message). Browser
storage is a `map` field.

The recompression engine is specified twice:

- by functions on values: `Classify` says whether an object is dispatched and
  to which job, `JpegOutcome`/`RawOutcome` give the outcome of each job,
  `Processed` gives the object after its job, and `CompressedTable` gives the
  whole table;
- by the imperative `PdfDocument` class, whose methods rewrite its object
  table in place and are proved equal to those functions.

Lemmas then state what the engine promises about the functions:

- only candidates are replaced;
- every replacement beats its size gate (92% for JPEG sources, 85% for
  deflated raw sources);
- a masked or small image is never touched;
- a failure leaves the object as it was;
- the exact dictionary rewrite of each job;
- the stored dimensions;
- the 1500-pixel cap, under an explicit assumption about the codec.

The code tests `DecodeParms` only on the `FlateDecode` path, so a
`DCTDecode` image with `DecodeParms` is still dispatched to the JPEG job.
`PdfCompress.ClassifyComplete` states this.

The password rules differ between endpoints. The server's
`/change-password` accepts new passwords of one to three characters, while
`/create`, the access page and the change-password dialog all require four.
`VaultRoutes.ChangeAcceptsShortPasswords` states this for every such
password. The model keeps the server's rule as written.

## Model

| member | source | states |
|---|---|---|
| JsText.TrimStartShape | frontend/src/pages/VaultAccess.tsx:24 | removing leading whitespace leaves a suffix of the input; everything cut is whitespace and the result does not start with whitespace |
| JsText.TrimEndShape | frontend/src/components/Sidebar.tsx:34 | removing trailing whitespace leaves a prefix of the input; everything cut is whitespace and the result does not end with whitespace |
| JsText.TrimIsSlice | frontend/src/pages/VaultAccess.tsx:24 | `trim()` is a contiguous slice of its input with only whitespace on either side |
| JsText.TrimEmptyIff | frontend/src/pages/VaultAccess.tsx:25 | a trimmed id is empty exactly when the typed id is all whitespace, which is when the "Vault ID is required" branch is taken |
| JsText.TrimEnds | frontend/src/components/Sidebar.tsx:34-35 | a non-empty trim begins and ends with a non-whitespace character |
| JsText.TrimOfTrimmed | frontend/src/components/Sidebar.tsx:35 | a string without surrounding whitespace is its own trim |
| JsText.TrimIdempotent | frontend/src/components/Sidebar.tsx:34-35 | trimming twice equals trimming once, so the title handed to `onRename` is already trimmed |
| JsText.Dec | frontend/src/components/StructuredNotes.tsx:39 | the rendering of `${n}` is a non-empty string of decimal digits that denotes n, one digit exactly when n < 10 |
| JsText.DecInjective | frontend/src/components/StructuredNotes.tsx:39 | distinct counters render as distinct strings, so each `Note-${n}` candidate is a different name |
| JsText.LastIndexOf | frontend/src/components/StructuredNotes.tsx:53 | `lastIndexOf` answers -1 or an index holding the character, with no occurrence after it |
| JsText.Utf16Length | backend/src/routes/vault.ts:61 | JavaScript's `length` is the number of characters plus the number of characters outside the Basic Multilingual Plane; hence it lies between the number of characters and twice that |
| Api.StripApiSuffix | frontend/src/api.ts:1 | the `/\/api\/?$/` replacement removes a trailing `/api/` or `/api` and nothing else |
| Api.StripSlash | frontend/src/api.ts:1 | the `/\/$/` replacement removes exactly one trailing slash, when there is one |
| Api.ApiBase | frontend/src/api.ts:1 | the API base always ends in `/api` |
| Api.ApiBaseNormalises | frontend/src/api.ts:1 | a server URL configured bare, with `/`, with `/api` or with `/api/` yields the same base |
| Api.ApiBaseUnset | frontend/src/api.ts:1 | an unset or empty URL yields the same-origin base `/api` |
| Api.FailureMessage | frontend/src/api.ts:30-33 | a failed response throws the server's `error` text when it has one, otherwise "Request failed", and never an empty message |
| Api.UploadForm | frontend/src/api.ts:73-78 | the upload form holds the file first, and holds the title as well exactly when the title is truthy |
| Api.Session.SetToken | frontend/src/api.ts:5-9 | the cache takes the new token; session storage keeps it when truthy and loses the entry otherwise |
| Api.Session.GetToken | frontend/src/api.ts:11-14 | a truthy cached token is answered as is; otherwise storage is read and the answer is cached |
| Api.Session.RequestHeaders | frontend/src/api.ts:16-28 | the URL is base plus path; `Authorization: Bearer` is added exactly when a token exists and a JSON content type exactly when the body is not a form; all other caller headers are kept |
| Api.Session.PdfUrl | frontend/src/api.ts:97-100 | the PDF URL carries the token in its query string, rendered as `null` when there is none |
| Auth.ExtractToken | backend/src/middleware/auth.ts:15-22 | the extracted token is `TokenOf` of the header and query: a `Bearer ` header wins, with its text after the prefix; only otherwise is a single string query parameter used; an array or absent parameter gives no token |
| Auth.BearerIgnoresQuery | backend/src/middleware/auth.ts:18-22 | with a Bearer header the token does not depend on the query string at all |
| Auth.EmptyBearerShadowsQuery | backend/src/middleware/auth.ts:18-19 | a header of exactly `Bearer ` yields the empty, falsy token whatever the query string holds |
| Auth.AuthMiddleware | backend/src/middleware/auth.ts:14-36 | no truthy token answers 401 "No token provided"; a token the verifier rejects answers 401 "Invalid or expired token"; otherwise `next` runs with the decoded vault id stored on the request; the request is untouched on both error paths |
| Auth.NoTokenNoVerify | backend/src/middleware/auth.ts:24-27 | an empty Bearer header, or no header with an empty or missing query token, is answered before verification |
| VaultRoutes.Database.FetchVault | backend/src/routes/vault.ts:33-37 | a vault lookup logs one select and answers the stored hash exactly when the vault exists |
| VaultRoutes.Check | backend/src/routes/vault.ts:8-23 | a missing id answers 400 without a query; otherwise the answer says whether the vault exists |
| VaultRoutes.Login | backend/src/routes/vault.ts:25-51 | 400 without a query for a missing field; otherwise one lookup, then 404, 401 on a hash mismatch, or a token signed for the vault |
| VaultRoutes.CreateInputError | backend/src/routes/vault.ts:56-69 | `/create` input is accepted exactly when both fields are truthy, the id is at most 64 and the password 4 to 128 UTF-16 units long; a missing field is reported first, then "Input too long" for an id over 64 or a password over 128, then the 4-character minimum |
| VaultRoutes.CreateLengthBeforeMinimum | backend/src/routes/vault.ts:61-69 | an over-long id is reported as "Input too long" whatever the password's length |
| VaultRoutes.Create | backend/src/routes/vault.ts:53-95 | bad input answers 400 and touches nothing; an existing vault answers 409 after one lookup; a failed insert answers 500 and stores nothing; otherwise the hash with 12 rounds and an empty quick pad are stored and a token is returned |
| VaultRoutes.ChangeInputError | backend/src/routes/vault.ts:100-108 | a password change is accepted exactly when both fields are truthy and the new one is at most 128 UTF-16 units; missing fields are reported first, then "New password must be between 1 and 128 characters" |
| VaultRoutes.ChangePassword | backend/src/routes/vault.ts:97-134 | bad input answers 400 without a query; a missing vault answers 404 and a wrong current password 401, both without changes; otherwise only this vault's hash is replaced and a new token is returned; quick pads never change |
| VaultRoutes.ChangeAcceptsShortPasswords | backend/src/routes/vault.ts:105 | every new password of one to three UTF-16 units passes the change checks, while `/create` refuses it as too short for any truthy id of at most 64 units (backend/src/routes/vault.ts:66-67) |
| FileRoutes.MulterVerdict | backend/src/routes/files.ts:8-15 | an upload reaches the handler exactly when its mimetype is `application/pdf` and it is at most 50 MiB; a wrong mimetype is refused by the filter |
| FileRoutes.PdfTitle | backend/src/routes/files.ts:83 | a PDF's title is the body's title if truthy, else the original file name if non-empty, else "Untitled.pdf"; it is never empty |
| FileRoutes.NoteTitle | backend/src/routes/files.ts:41 | a note's title is the given one if truthy, else "Untitled"; it is never empty |
| FileRoutes.Updated | backend/src/routes/files.ts:171-173 | an update always sets `updated_at`, sets the title when one is given, sets the content only for a note given one, and changes no other column |
| FileRoutes.PdfContentUnchanged | backend/src/routes/files.ts:173 | a PDF's content and storage path survive any update |
| FileRoutes.BuildUpdates | backend/src/routes/files.ts:171-173 | the update record has `updated_at`, has `title` exactly when a title is given, and has `content` exactly when content is given for a note |
| FileRoutes.UpdatesMeetSpecification | backend/src/routes/files.ts:171-178 | applying such a record to the row yields the `Updated` row |
| FileRoutes.FileStore.UploadPdf | backend/src/routes/files.ts:55-107 | the filter refuses before the handler runs; no file answers 400; the stored bytes are the compressor's output, or the original when it throws; a storage failure answers 500 with nothing stored; an insert failure answers 500 and leaves the bucket object; otherwise the row records both sizes and the title |
| FileRoutes.FileStore.CreateNote | backend/src/routes/files.ts:33-53 | a failed insert answers 500 and stores nothing; otherwise a note row with empty content is added and its listed columns returned |
| FileRoutes.FileStore.GetFile | backend/src/routes/files.ts:109-130 | a file outside the vault answers 404 exactly; a note is answered whole and a PDF by its listed columns |
| FileRoutes.FileStore.PutFile | backend/src/routes/files.ts:159-187 | a file outside the vault answers 404 and nothing changes; otherwise only this row becomes the `Updated` row |
| FileRoutes.FileStore.DeleteFile | backend/src/routes/files.ts:189-205 | a file outside the vault answers 404 and nothing changes; otherwise the row is removed, and its bucket object too exactly when it is a PDF with a non-empty path |
| PdfCompress.ResizeRequestedIff | backend/src/compress.ts:59-61 | a resize is requested exactly when an edge exceeds 1500, and it is a 1500-pixel fit-inside box without enlargement |
| PdfCompress.Classify | backend/src/compress.ts:21-40 | a dispatched object is an unmasked raw image stream with non-zero numeric dimensions covering at least 2500 pixels; a JPEG job has a `DCTDecode` filter and a raw job a `FlateDecode` filter without `DecodeParms` |
| PdfCompress.ClassifyComplete | backend/src/compress.ts:33-39 | every such candidate is dispatched to the job its filter names, including a `DCTDecode` stream that has `DecodeParms` |
| PdfCompress.OtherFiltersIgnored | backend/src/compress.ts:33-39 | any other filter, and `FlateDecode` with decode parameters, is never dispatched |
| PdfCompress.ImageDict | backend/src/compress.ts:71-73 | `replaceImage` writes `Width`, `Height` and the new payload's `Length` and keeps every other entry |
| PdfCompress.JpegDict | backend/src/compress.ts:135-139 | the raw job marks the stream as 8-bit `DeviceRGB` `DCTDecode`, drops `DecodeParms` and keeps every other entry |
| PdfCompress.ReplacedOnlyCandidates | backend/src/compress.ts:21-40 | only a dispatched candidate is ever replaced, and always by a raw stream |
| PdfCompress.ReplacementMeetsGate | backend/src/compress.ts:95 | a replacement from the JPEG job is under 92% of the original payload, one from the raw job under 85% of the stored payload (backend/src/compress.ts:131), so every replacement is under 92% |
| PdfCompress.GateFailureLeavesObject | backend/src/compress.ts:95-101 | a failed gate or any failure inside a job leaves the object exactly as it was |
| PdfCompress.MaskedNeverReplaced | backend/src/compress.ts:31 | an image with `SMask` or `Mask` is never dispatched and never changes |
| PdfCompress.SmallNeverReplaced | backend/src/compress.ts:29 | an image declaring fewer than 2500 pixels is never dispatched and never changes |
| PdfCompress.RawReplacedValidated | backend/src/compress.ts:113-122 | a raw job replaces only with an RGB or grey colour space, 8 bits per component, a successful inflate and exactly `w * h * channels` inflated bytes |
| PdfCompress.RawReplacementValidated | backend/src/compress.ts:104-131 | every object the raw job replaced passed those checks against its declared dimensions |
| PdfCompress.JpegReplacedShape | backend/src/compress.ts:97-98 | a JPEG job's replacement is `replaceImage`'s rewrite of the original dictionary around the encoder's output |
| PdfCompress.RawReplacedShape | backend/src/compress.ts:133-141 | a raw job's replacement is `replaceImage`'s rewrite of the JPEG-marked dictionary around the encoder's output |
| PdfCompress.ReplacedShape | backend/src/compress.ts:63-75 | every replacement is a raw stream whose payload is the new data and whose dictionary is the job's dictionary with the `replaceImage` entries |
| PdfCompress.JpegReplacementDictionary | backend/src/compress.ts:98 | on the JPEG path the dictionary gains only `Width`, `Height` and `Length`, with `Length` equal to the new payload's size; every other entry is kept |
| PdfCompress.RawReplacementDictionary | backend/src/compress.ts:135-141 | on the raw path the dictionary also becomes 8-bit `DeviceRGB` `DCTDecode` without `DecodeParms`; every other entry is kept |
| PdfCompress.ReplacementDimensions | backend/src/compress.ts:98 | the stored `Width` and `Height` are the encoder's reported size, each falling back to the declared one when missing |
| PdfCompress.ReplacementWithinMaxDim | backend/src/compress.ts:89-91 | for a codec that honours fit-inside, an image declared larger than 1500 reports no edge above 1500 once replaced |
| PdfCompress.TableChangesOnlyReplaced | backend/src/compress.ts:21-42 | compression keeps the set of references, and an object changes only when its own job replaced it |
| PdfCompress.NoCandidatesNoChange | backend/src/compress.ts:21-42 | a document with no dispatchable image keeps its whole object table |
| PdfCompress.PdfDocument.ReplaceImage | backend/src/compress.ts:63-75 | the object at the reference becomes a raw stream of the new data under the `ImageDict` dictionary; no other reference changes |
| PdfCompress.PdfDocument.SquashJpeg | backend/src/compress.ts:77-102 | the JPEG job's outcome equals `JpegOutcome`, and the table changes only at its reference and only on replacement |
| PdfCompress.PdfDocument.SquashRaw | backend/src/compress.ts:104-145 | the raw job's outcome equals `RawOutcome`, and the table changes only at its reference and only on replacement |
| PdfCompress.PdfDocument.ProcessObject | backend/src/compress.ts:22-39 | one step of the scan leaves the object at its reference as `Processed` and every other reference unchanged |
| PdfCompress.PdfDocument.ClearMetadata | backend/src/compress.ts:44-49 | title, author, subject, producer and creator become empty and the keywords an empty list |
| PdfCompress.PdfDocument.CompressPdf | backend/src/compress.ts:15-52 | after all jobs settle the object table is `CompressedTable` of the original, whatever order the jobs ran in, and the metadata is cleared |
| StructuredNotes.Titles | frontend/src/components/StructuredNotes.tsx:50 | the title list has one entry per file, in order |
| StructuredNotes.NoteTitles | frontend/src/components/StructuredNotes.tsx:34-36 | a string is among the note titles exactly when some note carries it |
| StructuredNotes.SuffixedInjective | frontend/src/components/StructuredNotes.tsx:58 | for a fixed base and extension, distinct counters give distinct candidate names |
| StructuredNotes.TakenBound | frontend/src/components/StructuredNotes.tsx:57-58 | if the candidates for 1..n are all taken, there are at least n titles, so the counting loop stops |
| StructuredNotes.LeastFreeSuffix | frontend/src/components/StructuredNotes.tsx:57-59 | the counting loop ends at the least free counter, never beyond one more than the number of titles |
| StructuredNotes.NextNoteName | frontend/src/components/StructuredNotes.tsx:33-41 | the new note's name is no existing note's title and is `Note-n` for the least such n |
| StructuredNotes.NoteNamesIgnorePdfs | frontend/src/components/StructuredNotes.tsx:34-36 | a PDF's title never blocks a note name |
| StructuredNotes.SplitExtension | frontend/src/components/StructuredNotes.tsx:53-55 | base followed by extension rebuilds the name; a non-empty extension starts at the last dot, which is not the first character |
| StructuredNotes.UniquePdfName | frontend/src/components/StructuredNotes.tsx:49-60 | the upload name is no file's title; it is the name itself when free, otherwise `base-n.ext` for the least free n |
| StructuredNotes.NotesState.HandleDelete | frontend/src/components/StructuredNotes.tsx:82-86 | a rejected delete changes nothing; otherwise the selection and the open file are cleared exactly when the deleted file was selected (with the effect at frontend/src/components/StructuredNotes.tsx:25-31), and the list is replaced when the reload succeeds |
| StructuredNotes.NotesState.HandleRename | frontend/src/components/StructuredNotes.tsx:74-80 | a rejected update or reload changes nothing; otherwise the list is replaced and only an open file with the renamed id takes the new title; the selection is always kept |
| VaultAccess.CreatePasswordError | frontend/src/pages/VaultAccess.tsx:55-57 | creation is sent exactly when the password is non-empty, at least 4 UTF-16 units and equal to its confirmation; each failure has its own message, in that order |
| VaultAccess.ClientCheckMeetsServerCheck | frontend/src/pages/VaultAccess.tsx:53-62 | what the page sends to `/create` passes the server's input checks once within its length limits (backend/src/routes/vault.ts:56-69) |
| VaultAccess.AccessPage.EditVaultId | frontend/src/pages/VaultAccess.tsx:117 | typing sets the id and keeps the page invariant |
| VaultAccess.AccessPage.EditPassword | frontend/src/pages/VaultAccess.tsx:143 | typing sets the password and keeps the page invariant |
| VaultAccess.AccessPage.EditConfirmPassword | frontend/src/pages/VaultAccess.tsx:246 | typing sets the confirmation and keeps the page invariant |
| VaultAccess.AccessPage.ToggleTerms | frontend/src/pages/VaultAccess.tsx:203 | the checkbox sets the terms flag and keeps the page invariant |
| VaultAccess.AccessPage.HandleCheckVault | frontend/src/pages/VaultAccess.tsx:22-36 | a blank id is refused without a call; otherwise the trimmed id is sent and the answer moves to the password or confirm-create step; a failure shows its message or the fallback |
| VaultAccess.AccessPage.HandleLogin | frontend/src/pages/VaultAccess.tsx:38-51 | an empty password is refused without a call; otherwise access is granted to the trimmed id with the returned token, or the error is shown |
| VaultAccess.AccessPage.HandleCreate | frontend/src/pages/VaultAccess.tsx:53-68 | nothing is sent unless `CreatePasswordError` passes; then access is granted to the trimmed id, or the error is shown |
| VaultAccess.AccessPage.ConfirmYes | frontend/src/pages/VaultAccess.tsx:167 | confirming creation moves to the terms step |
| VaultAccess.AccessPage.ContinueAfterTerms | frontend/src/pages/VaultAccess.tsx:210-214 | the password step is reached only with the terms accepted |
| VaultAccess.AccessPage.GoBack | frontend/src/pages/VaultAccess.tsx:70-76 | going back returns to the id step with the passwords, the error and the terms reset, keeping the id |
| VaultDashboard.ModeKeysDistinct | frontend/src/pages/VaultDashboard.tsx:22 | distinct vaults persist their modes under distinct keys |
| VaultDashboard.InitialMode | frontend/src/pages/VaultDashboard.tsx:16-18 | the start mode is the stored text when non-empty, otherwise `quickpad` |
| VaultDashboard.Dashboard.SetMode | frontend/src/pages/VaultDashboard.tsx:46-52 | a mode tab sets the mode and persists it under this vault's key |
| VaultDashboard.ModeRestored | frontend/src/pages/VaultDashboard.tsx:16-23 | a mode chosen with a tab is the one the next mount of that vault starts in |
| VaultDashboard.ModeIsolated | frontend/src/pages/VaultDashboard.tsx:16-23 | another vault's stored mode never changes this vault's start mode |
| VaultDashboard.ChangePasswordError | frontend/src/pages/VaultDashboard.tsx:125-136 | the dialog sends exactly when all fields are filled, the new password matches its confirmation and has at least 4 UTF-16 units; "All fields are required", "New passwords do not match" and "New password must be at least 4 characters" are reported in that order |
| VaultDashboard.DialogCheckMeetsServerCheck | frontend/src/pages/VaultDashboard.tsx:125-140 | what the dialog sends passes the server's change checks, within the 128-unit limit (backend/src/routes/vault.ts:100-108) |
| VaultDashboard.ChangePasswordModal.HandleSubmit | frontend/src/pages/VaultDashboard.tsx:121-148 | nothing is sent unless `ChangePasswordError` passes; a success stores the returned token and marks the dialog done; a failure shows its message and keeps the session |
| Sidebar.SidebarState.StartRename | frontend/src/components/Sidebar.tsx:27-31 | the file's id is being renamed, starting from its current title |
| Sidebar.SidebarState.EditRename | frontend/src/components/Sidebar.tsx:69 | typing sets the rename text |
| Sidebar.SidebarState.CommitRename | frontend/src/components/Sidebar.tsx:33-38 | `onRename` is called exactly when an id is being renamed and the trimmed text is non-empty, with that already-trimmed text; the rename always ends |
| Sidebar.SidebarState.KeyDown | frontend/src/components/Sidebar.tsx:71-74 | Enter commits, Escape cancels without renaming, other keys change nothing |
| Sidebar.SidebarState.HandleFileInput | frontend/src/components/Sidebar.tsx:40-44 | only the first chosen file is uploaded, none when none was chosen, and the input is cleared |
| App.Restored | frontend/src/App.tsx:16-23 | a page load reopens a vault exactly when both the stored token and the stored id are non-empty, and it is the stored id |
| App.AccessSurvivesReload | frontend/src/App.tsx:25-30 | after access with a non-empty token, a reload reopens the same vault |
| App.LockForgetsVault | frontend/src/App.tsx:32-37 | after locking, a reload reopens nothing |
| App.Shell.Mount | frontend/src/App.tsx:16-23 | mounting shows the dashboard of the saved vault exactly when a token and a saved id are present, and otherwise keeps the page |
| App.Shell.MountFresh | frontend/src/App.tsx:13-23 | on a fresh load the page shows exactly the `Restored` vault, or the login page |
| App.Shell.HandleAccess | frontend/src/App.tsx:25-30 | access stores the token and the id and opens that vault's dashboard |
| App.Shell.HandleLock | frontend/src/App.tsx:32-37 | locking forgets the token and the id in memory and in storage and returns to login |
| App.Shell.Navigate | frontend/src/App.tsx:47 | the access page's links show the about, privacy or terms page |
| App.Shell.Back | frontend/src/App.tsx:50-58 | the back button of those pages returns to login |

## Left out

- Loading and saving a PDF (`PDFDocument.load`, `doc.save`) are not modelled. The engine works on the object table and the Info entries of a loaded document, and the placement of the Info dictionary is not modelled.
- PDF numbers are integers in the model: a non-integer `Width` or `Height` is not modelled, and neither are PDF null entries or the `Infinity`/`NaN` cases of JavaScript multiplication.
- PdfCompress.JpegGate: the source compares floating-point products (`out.length >= original.length * 0.92`). The model compares integers (`100 * out < 92 * orig`), which agree for the integer lengths involved except where floating-point rounding of the product differs.
- PdfCompress.RawGate: the same integer form stands for `out.length >= stream.contents.length * 0.85`, with the same caveat about floating-point rounding.
- The jobs run concurrently under `Promise.all`. The model runs them one after another, in any order; since each job writes only its own reference, every order gives the same `CompressedTable`.
- The image codec, mozjpeg, zlib and the 4-channel case are not modelled: their results are parameters. The 1500-pixel cap is proved only for a codec satisfying `HonoursFitInside`.
- The dictionary object shared between the stream and the replacement is not modelled as aliasing. The model copies it, which gives the same replacement because the dictionary is written only on the replacement path.
- `GET /files` (the vault's file list ordered by `updated_at`) and `GET /files/:id/pdf` (the download from storage with its headers) are not modelled.
- The re-select after each insert or update is not modelled. The model answers the listed columns of the row it wrote.
- The `created_at` default of the database is the clock value `now` of the insert.
- Request bodies are strings or absent. Other JSON types in a body (a number or null title, a non-string password) are not modelled.
- VaultRoutes.Create: the result of the quick-pad insert is not checked in the source. The model always stores the empty quick pad.
- The contents of the JWT (payload and 24-hour expiry), the secret and bcrypt's hashing are not modelled: `Crypto` and the verifier are parameters.
- The outer `try/catch` of the upload route (a 500 for an unexpected exception) is not modelled.
- The express error handler's reply to multer's errors is not modelled: the model answers `ToErrorHandler` with multer's message.
- FileRoutes.FileStore.UploadPdf and FileRoutes.FileStore.CreateNote require a file id not yet in the table. This stands for the uniqueness of `uuidv4`, which the source relies on without checking.
- Supabase I/O errors other than the ones the handlers read are not modelled. The storage removal and the delete of `DELETE` are assumed to succeed, as the source does not check them.
- `backend/src/index.ts` (server set-up, CORS, body parsing) and `backend/src/routes/quickpad.ts` are not part of this model.
- The rendering of every component is not modelled. Neither are the theme, the static pages (about, privacy, terms), `NoteEditor`, `QuickPad` and `PDFViewer`, with their save timers and size formatting.
- The reload of the file list after each action is a parameter: `reloaded` is what `loadFiles` fetched, or None where it rejected. The `getFile` of the selection effect is not modelled.
- `handleCreateNote` and `handleUploadPDF` in the structured-notes view are not modelled: their names come from `NextNoteName` and `UniquePdfName`, and what remains is I/O and reloads.
- The `onBlur` commit of the sidebar's rename field is `CommitRename`. A blur after the rename field has disappeared is not modelled.
- `VaultDashboard` remounting for a changed `vaultId` prop is not modelled: the model's `vaultId` is fixed per dashboard.
- App.Shell.Navigate: the source accepts any string and casts it to a page. The model takes only the three pages the access page links to.
- Navigating from the access page to the terms page unmounts the access page. Its state is not kept by the shell, so returning starts a fresh `AccessPage`; this is not modelled as an event.
- The change-password dialog's field setters and its close button are plain assignments and are not modelled.
- The `loading` flag is raised and lowered within one handler in the model, since the call's answer is a parameter. The disabled submit buttons are the `!loading` preconditions.
