# SecondBrain, modelled in Dafny

SecondBrain lets a signed-in user upload PDFs and ask questions about them.

- **Ingestion.** On upload the server extracts the text and splits it into chunks. It embeds every chunk, stores one vector per chunk in a similarity index (tagged with the owner and the document), records the document, and deletes the temporary file.
- **Answering.** For a question it embeds the question and queries the index under a filter that always names the caller, and the document when one is given. It builds a prompt from the matching chunks, asks a generation model, and returns the answer with its sources, one per file.
- **Accounts.** The server also keeps user accounts: email signup and login, profile edits, an avatar, Google sign-in that links accounts by email, and a recent-documents history.
- **Browser.** Three client pieces hold the logic the browser adds:
  - a sign-up form with password rules;
  - a chat panel that keeps one history per document in local storage;
  - an upload widget that accepts only PDFs.

This project models those pieces and proves what they promise:

- tenant isolation of the query filter, and of the vectors ingestion writes;
- order, uniqueness and coverage of the cited sources;
- the fixed order of the ingestion steps, with nothing written before every embedding exists;
- the `{key}_{i}` vector ids being a bijection with chunk indices;
- the user collection's unique emails and Google ids being kept by every handler;
- the password rules agreeing with the strength meter;
- the chat log and the upload widget changing exactly as the handlers say.

Outside services are parameters of the handlers: the embedder, the index, the generation model, PDF extraction, the text splitter, the document collection, the file system, bcrypt and JWT signing. Each either returns a value or fails with a message (`Outcome`). Handlers return their response together with the calls they made, in order. A database call that throws is chosen by a `DbFault` (`FailAt(step, message)`).

Modules, one file each:

- `JsValues`: optional fields, outcomes, truthiness and `||`.
- `Strings`: `includes`, `${n}`, `split`, `trim`.
- `VectorStore`: metadata, ids and what a filter admits.
- `ChatController` and `UploadController`: the two server controllers.
- `TenantIsolation`: how ingestion and retrieval fit together.
- `UserModel`: the user collection, as a class over a sequence.
- `AuthRoutes` and `Passport`: the account routes and the Google strategy.
- `SignupForm`: the sign-up form's password rules.
- `ChatInterface` and `FileUpload`: the two client components, as classes.

## Model

| member | source | states |
|---|---|---|
| JsValues.Or | server/routes/auth.js:124-127 | `a \|\| b` returns one of its operands, and is truthy exactly when either operand is |
| JsValues.OrElse | client/src/components/FileUpload.jsx:99 | `a \|\| 'literal'` is `a` when truthy and is never empty when the literal is not |
| Strings.ContainsIffOccursAt | server/controllers/chatController.js:36 | `includes` holds exactly when the part occurs at some offset |
| Strings.NatToString | server/controllers/uploadController.js:64 | `${i}` is a non-empty string of decimal digits, one digit exactly below 10 |
| Strings.DecimalRoundTrip | server/controllers/uploadController.js:64 | reading back the decimal rendering of `n` gives `n` |
| Strings.NatToStringInjective | server/controllers/uploadController.js:64 | distinct indices render as distinct strings |
| Strings.Split | server/routes/auth.js:102 | `split` yields at least one piece and no piece contains the separator |
| Strings.JoinSplit | server/routes/auth.js:102 | joining the pieces with the separator restores the string |
| Strings.SplitAfterHead | server/routes/auth.js:102 | a separator-free head splits off as the first piece |
| Strings.TrimStart | client/src/components/ChatInterface.jsx:51 | the result is a suffix of the input, the removed prefix is all white space, and what remains does not start with white space |
| Strings.TrimEnd | client/src/components/ChatInterface.jsx:51 | the result is a prefix of the input, the removed suffix is all white space, and what remains does not end with white space |
| Strings.TrimEmptyIffBlank | client/src/components/ChatInterface.jsx:51 | `!input.trim()` holds exactly when the input is all white space |
| VectorStore.VectorIdInjective | server/controllers/uploadController.js:64 | an id `${key}_${i}` determines both the key and the index |
| ChatController.TenantFilter | server/controllers/chatController.js:48-54 | the filter always maps `user` to the caller, maps `documentId` exactly when a truthy one is given, and has no other key |
| ChatController.BuildFilter | server/controllers/chatController.js:48-54 | building the filter step by step yields the tenant filter |
| ChatController.TenantFilterAdmits | server/controllers/chatController.js:48-54 | the filter admits a record if and only if it belongs to the caller and, when a document is named, to that document |
| ChatController.QueriedMatchesBelongToCaller | server/controllers/chatController.js:56-64 | an index honouring the query returns at most 5 matches, all the caller's and all of the named document |
| ChatController.AssembleContext | server/controllers/chatController.js:68-71 | the accumulated context is the in-order concatenation of every match's segment |
| ChatController.ContextOfAppend | server/controllers/chatController.js:68-71 | the context of concatenated match lists is the concatenation of their contexts |
| ChatController.ContextInOrder | server/controllers/chatController.js:68-71 | match `i`'s segment sits between the segments of the matches before and after it |
| ChatController.ContextEmptyIffNoMatches | server/controllers/chatController.js:68-71 | the context is empty exactly when there are no matches |
| ChatController.PromptDeterminesContext | server/controllers/chatController.js:75-91 | for a fixed question the prompt contains the context verbatim at a fixed place |
| ChatController.PromptDeterminesQuestion | server/controllers/chatController.js:75-91 | for a fixed context the prompt contains the question verbatim at a fixed place |
| ChatController.DedupSources | server/controllers/chatController.js:101-109 | the loop with its seen-set computes the de-duplicated sources |
| ChatController.FirstIndex | server/controllers/chatController.js:104-108 | locates the first match carrying a filename; no earlier match carries it |
| ChatController.DedupFilenamesDistinct | server/controllers/chatController.js:101-109 | no filename is cited twice |
| ChatController.DedupCoversMatches | server/controllers/chatController.js:101-109 | the cited filenames are exactly the filenames of the matches |
| ChatController.EveryMatchCited | server/controllers/chatController.js:101-109 | every match's filename is cited |
| ChatController.DedupKeepsFirstScore | server/controllers/chatController.js:101-109 | each citation carries the score of the first match with its filename |
| ChatController.DedupFirstSeenOrder | server/controllers/chatController.js:101-109 | citations appear in the order their filenames are first seen |
| ChatController.DedupNoLonger | server/controllers/chatController.js:101-109 | there are never more citations than matches |
| ChatController.DedupExample | server/controllers/chatController.js:101-109 | [a 0.9, b 0.8, a 0.7] is cited as [a 0.9, b 0.8] |
| ChatController.Chat | server/controllers/chatController.js:12-127 | returns 400 with no service call for a falsy question. An embedding failure gives 429 (Embedding) when the message contains 429, else 500 with the error; nothing else is called. Every query carries the tenant filter, topK 5 and metadata. A query failure gives 500 with no generation. The prompt is the template around the context and the question. It answers with the de-duplicated sources, or 429 (Generation) or 500. `history` affects nothing |
| UploadController.Batch | server/controllers/uploadController.js:62-74 | the batch has one record per chunk, in chunk order |
| UploadController.BuildVectors | server/controllers/uploadController.js:62-74 | the loop builds exactly the batch |
| UploadController.BatchIdsMatchIndices | server/controllers/uploadController.js:62-65 | record `i` has id `${key}_${i}` and no two records share an id |
| UploadController.BatchesOfDistinctUploadsDisjoint | server/controllers/uploadController.js:64 | uploads stored under different keys never write the same id |
| UploadController.BatchMetadata | server/controllers/uploadController.js:65-72 | each record carries chunk `i`'s text, the original name, page 1, the uploader and the storage key. With as many embeddings as chunks, record `i` holds embedding `i` |
| UploadController.DocumentFor | server/controllers/uploadController.js:90-96 | the Document record has the owner, the original name, the size and the storage key. Its type is the media type when that is non-empty and 'pdf' when it is empty |
| UploadController.UploadFile | server/controllers/uploadController.js:11-112 | returns 400 with nothing touched when there is no file. Steps run in the fixed order extract, embed, upsert, record, unlink, each at most once, and stop at the first failure with 500 (an embedding failure is prefixed "Embedding Generation Failed: "). When embeddings came back but there is no chunk, the preview log line throws a TypeError, which also ends in 500 before any write. Nothing is written unless every embedding was produced and previewed. The upsert carries the batch, and the record is created only after a successful upsert. Success reports the chunk count, the original name and the storage key |
| UploadController.OwnedBy | server/controllers/uploadController.js:117 | keeps each of the caller's documents as often as it occurs and drops all others |
| UploadController.InsertByDate | server/controllers/uploadController.js:117 | inserting adds exactly the one document |
| UploadController.InsertByDateMembers | server/controllers/uploadController.js:117 | inserting brings in no document other than the inserted one |
| UploadController.InsertByDateKeepsOrder | server/controllers/uploadController.js:117 | inserting into a newest-first list keeps it newest first |
| UploadController.NewestFirst | server/controllers/uploadController.js:117 | the sort is newest first and a permutation of its input |
| UploadController.GetDocuments | server/controllers/uploadController.js:114-124 | lists exactly the caller's documents, newest first, or 500 "Error fetching documents" with the error |
| TenantIsolation.IngestedVectorsInvisibleToOtherUsers | server/controllers/uploadController.js:66-72 | no query of another user, scoped or not, admits any vector of an upload |
| TenantIsolation.IngestedVectorsOutsideOtherDocuments | server/controllers/chatController.js:52-54 | the owner's query scoped to another document admits none of the upload's vectors |
| TenantIsolation.IngestedVectorsVisibleToOwner | server/controllers/uploadController.js:101-106 | the owner's unscoped query, and the owner's query scoped to the returned document id, admit every vector of the upload |
| UserModel.StoredPassword | server/models/User.js:23-29 | a truthy password is stored hashed; anything else is stored as given |
| UserModel.PasswordRoundTrip | server/models/User.js:31-36 | a non-empty signup password matches at login under a comparison that recognises its hash; an empty or absent password never matches |
| UserModel.SchemaStored | server/models/User.js:4-21 | what the declared schema keeps of a record: email, password and Google id, and none of the profile fields |
| UserModel.NewAccount | server/routes/auth.js:69-72 | a signup record has the email, the stored password and no Google id |
| UserModel.UserCollection.FindOneByEmail | server/routes/auth.js:63 | returns the first user with the email, or none when no user has it |
| UserModel.UserCollection.FindOneByGoogleId | server/config/passport.js:17 | returns the first user linked to the Google id, or none when no user is |
| UserModel.UserCollection.Create | server/routes/auth.js:69-72 | appends the record; its id is the old size |
| UserModel.UserCollection.Save | server/routes/auth.js:134 | replaces the stored record and nothing else |
| UserModel.AppendKeepsKeysUnique | server/models/User.js:7-10 | adding a user with a new email and a new Google id keeps emails and Google ids unique |
| UserModel.UpdateKeepsKeysUnique | server/models/User.js:7-10 | rewriting a record with the same email, and a Google id nobody else holds, keeps them unique |
| AuthRoutes.Signup | server/routes/auth.js:59-90 | a taken email gives 400 "User already exists" with nothing created. Otherwise exactly one account is appended and the reply is 201 with id, email, username and token. A throwing lookup or create gives 500 with no change. Keys stay unique |
| AuthRoutes.Login | server/routes/auth.js:197-220 | logs in exactly when a user with the email exists and its stored password matches, returning that user's fields and token. Otherwise it is 401 "Invalid email or password", or 500 when the lookup throws |
| AuthRoutes.MergeProfile | server/routes/auth.js:124-132 | each of username, bio, phone number, location and picture takes the body value when truthy, else keeps the old one. Email, password, Google id and name never change |
| AuthRoutes.MergeNeverErases | server/routes/auth.js:124-132 | a merge never blanks a field that held a value |
| AuthRoutes.MergeIdempotent | server/routes/auth.js:124-132 | sending the same body twice equals sending it once |
| AuthRoutes.EmptyBodyKeepsProfile | server/routes/auth.js:124-132 | a body with no truthy field changes nothing |
| AuthRoutes.UpdateProfile | server/routes/auth.js:119-152 | a missing user gives 404 "User not found". Otherwise exactly that record becomes its merge, and the reply carries the merged fields and a token. A throw gives 500 with no change. Keys stay unique |
| AuthRoutes.MimeSubtype | server/routes/auth.js:102 | the extension taken from the media type never contains '/' |
| AuthRoutes.AcceptedAvatarName | server/routes/auth.js:102-113 | a type that passes the filter (it starts with `image/`) and has no further '/' is stored as `avatar-<id>-<time>.<subtype>` |
| AuthRoutes.AvatarExtension | server/routes/auth.js:102 | for `image/<sub>` the extension is `<sub>` up to any further '/', and exactly `<sub>` when it has none |
| AuthRoutes.AvatarFilenamesDistinctInTime | server/routes/auth.js:101-103 | one user's uploads at different times get different names |
| AuthRoutes.AvatarFilenamesDistinctAcrossUsers | server/routes/auth.js:101-103 | users with different dash-free ids never share an avatar name |
| AuthRoutes.ProfileUpdateLostAsWritten | server/routes/auth.js:124-134 | under the declared schema the merged record is kept exactly as the old one, so a truthy username is never stored |
| AuthRoutes.AvatarLostAsWritten | server/routes/auth.js:166-168 | under the declared schema the avatar URL is never stored |
| AuthRoutes.UploadAvatar | server/routes/auth.js:157-180 | with both a user and a file, only that user's picture becomes `http://localhost:5000/uploads/<name>`. Otherwise it is 400 "No file uploaded", or 500 with no change when a call throws |
| AuthRoutes.NewestPrefixIsNewest | server/routes/auth.js:187 | a document left out of a newest prefix is no newer than any listed one |
| AuthRoutes.History | server/routes/auth.js:185-192 | lists min(10, owned) of the caller's documents, newest first, forming the head of a newest-first arrangement of all of them; a failure gives 500 "Error fetching history" |
| Passport.GoogleAccount | server/config/passport.js:33-37 | a new Google account has the profile's first email, its id as Google id, its display name, and no password |
| Passport.GoogleVerify | server/config/passport.js:14-43 | a known Google id returns that account with nothing written. Otherwise the account holding the first email gets the Google id, changing nothing else. Failing that, exactly one account is created. A verified user always carries the profile's Google id. A profile without an email or a throwing call hands back an error and leaves the collection unchanged. Keys stay unique |
| SignupForm.Utf16Length | client/src/pages/Signup.jsx:21 | `password.length` lies between the character count and twice that |
| SignupForm.PasswordError | client/src/pages/Signup.jsx:21-32 | reports too short exactly when under 8, no number exactly when long enough without a digit, no special character exactly when only that rule fails, and nothing exactly when all three hold |
| SignupForm.MeterOf | client/src/pages/Signup.jsx:98 | the meter is shown exactly while the password is non-empty |
| SignupForm.StrongIffAccepted | client/src/pages/Signup.jsx:101-105 | the label is 'Strong' exactly when submit validation accepts, and 'Weak' exactly below 6 |
| SignupForm.ErrorIsFirstUncheckedItem | client/src/pages/Signup.jsx:116-126 | the submit error names the first checklist item that is not green, and there is none when all are |
| SignupForm.StrengthNeverDropsWhileTyping | client/src/pages/Signup.jsx:104-105 | appending characters never lowers the label |
| SignupForm.HandleSubmit | client/src/pages/Signup.jsx:16-44 | signup is called exactly when the password passes. Otherwise the first rule's message is shown and there is no navigation. It navigates to /dashboard exactly on a successful reply; any other outcome shows a non-empty error |
| ChatInterface.StorageKey | client/src/components/ChatInterface.jsx:21 | the key is `chatHistory_` followed by the document id |
| ChatInterface.StorageKeyInjective | client/src/components/ChatInterface.jsx:21 | different documents never share a history key |
| ChatInterface.ChatPanel.constructor | client/src/components/ChatInterface.jsx:9-13 | starts with the upload greeting, empty input and not loading |
| ChatInterface.ChatPanel.SetDocument | client/src/components/ChatInterface.jsx:8 | a new document id changes nothing else |
| ChatInterface.ChatPanel.RestoreHistory | client/src/components/ChatInterface.jsx:19-31 | with a document, restores its saved history, else shows the document greeting; without one, nothing changes |
| ChatInterface.ChatPanel.PersistMessages | client/src/components/ChatInterface.jsx:34-38 | stores the log under the document's key only when there is a document and the log is non-empty |
| ChatInterface.ChatPanel.ClearChat | client/src/components/ChatInterface.jsx:40-47 | with a document, removes its key and resets to the cleared greeting; without one, nothing changes |
| ChatInterface.ChatPanel.Type | client/src/components/ChatInterface.jsx:159 | typing sets the input and nothing else |
| ChatInterface.ChatPanel.BeginSend | client/src/components/ChatInterface.jsx:49-61 | blank input does nothing; signed out navigates to /login with the log untouched. Otherwise it appends one user message, clears the input, sets loading, and posts `{question, history: [], documentId}` |
| ChatInterface.ChatPanel.AssistantReply | client/src/components/ChatInterface.jsx:70-78 | the reply message is from the assistant, and is the apology on an error |
| ChatInterface.ChatPanel.CompleteSend | client/src/components/ChatInterface.jsx:63-81 | appends exactly one assistant message, the answer with sources or the apology, and stops loading |
| ChatInterface.ChatPanel.Send | client/src/components/ChatInterface.jsx:49-82 | a request is sent exactly when the input is not blank and a user is signed in. It then appends exactly one user message and then one assistant message, leaving earlier messages untouched; input is cleared and loading ends. Otherwise the log, input and loading flag are unchanged. A signed-out send of non-blank input navigates to /login; every other send navigates nowhere |
| FileUpload.UploadWidget.constructor | client/src/components/FileUpload.jsx:7-12 | starts idle with no file and no message |
| FileUpload.UploadWidget.PickFiles | client/src/components/FileUpload.jsx:26-62 | signed out navigates to /login and changes nothing. A PDF becomes the held file, and the Ingest button (line 136) then shows exactly when the status was neither uploading nor success. Anything else shows "Please upload a PDF file." and keeps the held file |
| FileUpload.UploadWidget.ZoneClick | client/src/components/FileUpload.jsx:65-70 | signed out, the click goes to /login instead of opening the dialog |
| FileUpload.UploadWidget.BeginUpload | client/src/components/FileUpload.jsx:72-87 | without a file nothing happens; signed out it only navigates to /login. Otherwise the status is uploading and the held file is posted |
| FileUpload.UploadWidget.CompleteUpload | client/src/components/FileUpload.jsx:88-100 | success shows "Successfully processed <name>" and drops the file, calling back exactly when there is a callback and a truthy document id. Failure shows the server's message or "Error uploading file" |
| FileUpload.UploadWidget.Upload | client/src/components/FileUpload.jsx:72-101 | with a held file and a user, the file is posted once. Success shows "Successfully processed <name>", drops the file, and calls back exactly when there is a callback and a truthy id. Failure shows the server's message or "Error uploading file" and keeps the file. With a held file but no user, it only navigates to /login; without a file, nothing changes |

## Left out

- The text splitter (chunk size 1000, overlap 200) is a parameter. Its boundary policy belongs to the library.
- Text extraction is one parameter. It covers reading the temporary file and parsing the PDF.
- The embedding model, the similarity index, the generation model, bcrypt and JWT signing are parameters. Scores and vectors are carried as `real` values and never computed with.
- A user's id is its position in the collection. Documents and vectors hold the caller's id as an opaque string. Object-id casting in the document query is taken as string equality.
- Schema validation, such as a missing email, is not modelled. The fields the User schema leaves undeclared are kept on the record as the handlers assign them; see Findings.
- The "Invalid user data" branch of signup (server/routes/auth.js:84-86) cannot be reached. Create either returns a document or throws, so the model has no such branch.
- Welcome and login-alert emails are fire-and-forget and their failures are swallowed, so they are not modelled. The same holds for logging.
- The Google OAuth redirect routes and the `/me` lookup are not modelled. The same goes for the Express and multer wiring and the `protect` middleware; handlers receive the caller's id.
- A media type rejected by the avatar filter goes to Express's default error handler, which is not modelled. `AcceptsAvatar` states the filter itself, and `AcceptedAvatarName` ties an accepted type to the stored name. The upload time `Date.now()` is a parameter.
- Concurrency is not modelled. Each handler runs sequentially, and React effects run only when the caller invokes the matching method. Interleavings between `BeginSend`/`CompleteSend` and `BeginUpload`/`CompleteUpload` are not modelled beyond what those methods allow.
- ChatInterface.ChatPanel.RestoreHistory: takes the JSON round trip through local storage as the identity, and storage errors such as quota are not modelled.
- ChatController.Chat: the question is an optional string. Non-string JSON values, and error objects without a message, are not modelled.
- AuthRoutes.Login: the entered password is a string. An absent password, on which bcrypt throws and the reply is 500, is not modelled.
- AuthRoutes.Signup: the email is a string. An absent email, which a Mongo query would drop from its filter, is not modelled.
- FileUpload.UploadWidget.BeginUpload: starts from any status. On the page it is reached only through the Ingest button, shown while `IngestShown` holds (client/src/components/FileUpload.jsx:136). The model states that gate but does not require it. As written, a PDF picked after a success keeps the status 'success', so the button stays hidden until a non-PDF pick or a failure changes the status.
- ChatInterface.ChatPanel.BeginSend: starts whether or not a send is loading. On the page the input and the send button are disabled while loading (client/src/components/ChatInterface.jsx:162, 166), and that gate is not modelled.
- The strength meter's colour and bar width repeat the label's conditions, so only the label is modelled. The rest of each page and component is presentation.
- `.length` in the password rules counts UTF-16 code units. Elsewhere strings are sequences of code points, which changes nothing for `includes`, `split` or `trim` here.
- MongoDB's order among documents with equal `createdAt` is unspecified, so the listing contracts fix the order only up to such ties.

## Findings

| source | as written | input that shows it | evidently intended | confidence | as-written member | corrected member |
|---|---|---|---|---|---|---|
| server/models/User.js:4-21 | the schema declares only email, password, googleId and facebookId, so in Mongoose's default strict mode the profile fields, the avatar URL and the Google display name assigned by the handlers are not stored | `PUT /profile` with body `{username: "ada"}` for an existing user: the stored record has no username afterwards | the schema declares username, bio, phoneNumber, location, profilePicture and name, so the merged record is what is saved | not executed; rests on Mongoose's documented strict-mode default | AuthRoutes.ProfileUpdateLostAsWritten | AuthRoutes.UpdateProfile |
