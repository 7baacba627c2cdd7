# airi: conversation import, classification and summary lookup

airi is a web dashboard for ChatGPT export archives. A signed-in user uploads an
export file. The dashboard normalises each exported conversation tree into a flat
`Conversation` with a list of `Message`s. It asks a hosted classifier for one
label per conversation and stores the labelled conversations in the user's
collection `conversations/{uid}/userConversations`, ten writes per atomic batch,
with a progress bar. Single conversations can later be fetched through a GET
route or summarised by a hosted summariser.

This project models that core and proves properties about it:

- `Types` (types.dfy) holds the stored records `Message`, `Conversation` and `User`, plus `Option` and `Attempt` for JavaScript's missing values and thrown errors.
- `Store` (store.dfy) models the document database as a map from document references to conversations. It covers batched writes and the `getDoc` lookup, which may fail.
- `ArchiveParser` (archive_parser.dfy) models `extractChatData` from the point after `JSON.parse`. It also gives a reference definition of the messages a mapping yields, and proves the two equal.
- `Classifier` (classifier.dfy) models `tagData`: the cut to 96 inputs and the fixed few-shot example table. The hosted classifier is a function parameter.
- `Summary` (summary.dfy) models `getSummary`. `SummaryRoute` (summary_route.dfy) models the `GET` handler of the summary route.
- `Users` (users.dfy) models the dashboard's user lookup. The class `UserCollection` models `updateUserHasUploaded` as an in-place update.
- `BatchWriter` (batch_writer.dfy) models the class `Dashboard`, with `SaveConversationsToFirestore` and `ProcessFile`.
  - The loop of `saveConversationsToFirestore` is proved to leave exactly the state the closed-form `Plan` and `Expected` describe.
  - That state covers the documents stored, the progress values reported, the classifier inputs sent and the batches committed.
  - Lemmas prove what that state means: commit sizes, stored documents on success and on failure, and the progress bounds.

The hosted classifier, the summariser and the batch commit are modelled as oracle parameters:
- `Classify` is a function from classifier inputs to an answer or a thrown error.
- `Summarize` is a function from a stored conversation to a text or a thrown error.
- `Commit` maps the number of a commit attempt to success or a thrown error.

An unreachable database is the `Offline` case of `Store.Connection`.

Three behaviours of the code are worth knowing:
- Progress can show 100 before the last commit. The value for item `i` of `n` is below 100 exactly when `200 (n - i) > n`, so when `n >= 200` the last item is already announced as 100 (`BatchWriter.RoundBelowHundred`, `BatchWriter.EarlyHundred`).
- The import never sets the user's `has_uploaded` flag: `saveConversationsToFirestore` and `processFileMutation` do not call `updateUserHasUploaded`, and the model keeps the two apart.
- Failures are reported with the thrown error's own message when it has one. The generic text "Something went wrong" is used only when the error has no message.

## Model

| member | source | states |
|---|---|---|
| Users.FirstWithId | src/app/dashboard/page.tsx:60-62 | the position of the first user record whose `id` matches, or none exactly when no record matches |
| Users.GetUser | src/app/dashboard/page.tsx:53-69 | the user record is returned exactly when signed in and some record carries the uid, and it is the whole record of the first such document; otherwise 'User not found' is thrown |
| Users.MarkUploaded | src/lib/queries.ts:319-335 | the collection after the update: same length, only the first record with a matching `id` changes, and only its `has_uploaded`, to true |
| Users.UserCollection.UpdateUserHasUploaded | src/lib/queries.ts:319-335 | updates the collection in place to `MarkUploaded` of the old one; with no matching record the collection is unchanged |
| Users.SameIdsSameLookup | src/app/dashboard/page.tsx:60-62 | which record the lookup finds depends on the records' `id`s alone |
| Users.MarkUploadedKeepsLookups | src/lib/queries.ts:319-335 | the update never changes which record a lookup of any id finds |
| Users.UploadedThenFound | src/lib/queries.ts:319-335 | after the update the user is still found, with the same record except that the flag is now set |
| Users.OthersUnaffected | src/lib/queries.ts:319-335 | after the update every other user is found exactly as before |
| ArchiveParser.Truthy | src/lib/queries.ts:40 | a parent id counts as present exactly when it is present and non-empty, and is then kept unchanged |
| ArchiveParser.Join | src/lib/queries.ts:38 | empty for no parts; otherwise starts with the first part's text, followed by a space when more parts follow (partner: `SplitJoin`) |
| ArchiveParser.PartsOf | src/lib/queries.ts:32-34 | the items of `content.parts` when it is an array, and no parts when it is not or `content` is missing |
| ArchiveParser.MessageOf | src/lib/queries.ts:35-42 | every field of the message: id, role or 'user', joined content, time or 0, the node's truthy parent, the node's children or `[]` (partners: `LinksComeFromNode`, `MessageDefaults`) |
| ArchiveParser.ConvertNode | src/lib/queries.ts:26-45 | throws exactly on a message without an author; a node yields a message exactly when it carries one, and that message is `MessageOf` the node |
| ArchiveParser.DropNulls | src/lib/queries.ts:46 | keeps exactly the non-null messages and nothing else (partner: `ExtractMessagesSpec`) |
| ArchiveParser.ExtractMessages | src/lib/queries.ts:25-46 | at most one message per node; the only error is the missing author (partner: `ExtractMessagesSpec`) |
| ArchiveParser.ExtractConversation | src/lib/queries.ts:20-56 | a missing `mapping` throws; otherwise the four header fields are copied, no label is set, and the messages are those of the mapping (partner: `ExtractChatDataFails`) |
| ArchiveParser.ExtractChatData | src/lib/queries.ts:15-59 | one conversation per export, in order; title, times and id copied, no label set |
| ArchiveParser.ExtractMessagesSpec | src/lib/queries.ts:25-46 | the messages are exactly the nodes carrying a message, converted, in order; conversion fails exactly when some message has no author, and nodes without a message never fail |
| ArchiveParser.ExtractChatDataFails | src/lib/queries.ts:20-56 | the archive fails to normalise exactly when some export lacks `mapping` or holds an authorless message |
| ArchiveParser.LinksComeFromNode | src/lib/queries.ts:40-41 | parent and children come from the node, not its payload; an empty parent reads as missing; missing children give `[]` |
| ArchiveParser.MessageDefaults | src/lib/queries.ts:32-39 | content is empty unless `content.parts` is an array; a missing role reads as 'user'; a missing time reads as 0 |
| ArchiveParser.SplitJoin | src/lib/queries.ts:38 | the space-join of non-null, space-free parts splits back into those parts |
| Classifier.TagInputs | src/lib/queries.ts:136 | the first 96 inputs, or all of them when there are fewer, in order |
| Classifier.TagData | src/lib/queries.ts:135-138 | input of at most 96 reaches the classifier whole; longer input is cut to its first 96 |
| Classifier.LabelCount | src/lib/queries.ts:139-314 | the count is at most the table's size, and is zero exactly when no example carries the label |
| Classifier.ExampleTableShape | src/lib/queries.ts:139-314 | the example table has 50 entries over 25 distinct labels, each exactly twice, 'Other' among them |
| Summary.ErrorText | src/lib/queries.ts:98 | the error's message, or 'Something went wrong' when it has none |
| Summary.GetSummary | src/lib/queries.ts:64-102 | exactly one of error and data is set; a failed read gives the error text; a missing document gives 'Conversation not found'; otherwise the summariser's text or its error |
| Summary.NotFoundSkipsSummarizer | src/lib/queries.ts:79-84 | when the document is missing or unreadable the result does not depend on the summariser |
| SummaryRoute.ParseString | src/app/api/get-summary/route.ts:9-12 | a present parameter parses to itself; a missing one (null) throws |
| SummaryRoute.Get | src/app/api/get-summary/route.ts:6-46 | status 500 exactly for a missing parameter or a failed read of valid ids; 400 'Invalid conversation ID or user ID' exactly for an empty id; 404 'Conversation not found'; 200 exactly when the document exists, returned as stored; a 500 carries the validator's message for a missing parameter and the database error's text for a failed read |
| SummaryRoute.ServerError | src/app/api/get-summary/route.ts:39-44 | status 500 with the thrown error's message, or 'Something went wrong' when it has none |
| SummaryRoute.InvalidIdsSkipStore | src/app/api/get-summary/route.ts:16-21 | an empty id is answered without regard to the database |
| Store.GetDoc | src/lib/queries.ts:77 | an unreachable database throws its error; otherwise the document is returned exactly when it exists, as stored |
| Store.ApplyWrites | src/app/dashboard/page.tsx:126-137 | committed writes keep every existing document and add one for each written reference (partners: `ApplyWritesLast`, `ApplyWritesUntouched`) |
| BatchWriter.BatchCount | src/app/dashboard/page.tsx:135-154 | the number of commits for `n` writes is `ceil(n / 10)` |
| BatchWriter.TagRequest | src/app/dashboard/page.tsx:119-124 | one classifier input per conversation, holding its title and id |
| BatchWriter.FirstPrediction | src/app/dashboard/page.tsx:128 | the label is present exactly when the answer has a first entry with a prediction, and is then that prediction |
| BatchWriter.PlannedWrite | src/app/dashboard/page.tsx:113-130 | each staged write goes to the conversation's id under `conversations/{uid}/userConversations` and changes only the label: the first prediction when the classifier answers, missing otherwise |
| BatchWriter.ChunkAt | src/app/dashboard/page.tsx:131-154 | batch `j` holds writes `10 j` up to `10 j + 10` or the end |
| BatchWriter.ChunksFlatten | src/app/dashboard/page.tsx:126-154 | the batches hold every staged write exactly once, in order |
| BatchWriter.ChunksPrefix | src/app/dashboard/page.tsx:131-144 | the first `j` batches hold exactly the first `10 j` writes |
| BatchWriter.ChunkSizes | src/app/dashboard/page.tsx:135-154 | `ceil(n / 10)` commits of 1 to 10 writes each; all but the last hold 10, and the last holds the remainder |
| BatchWriter.TwentyThreeWrites | src/app/dashboard/page.tsx:135-154 | 23 conversations are committed as 10, 10 and 3 |
| BatchWriter.Round | src/app/dashboard/page.tsx:106-111 | the progress value is the integer nearest to `100 i / n`, halves rounded up |
| BatchWriter.RoundBounds | src/app/dashboard/page.tsx:106-111 | progress starts at 0, never decreases, never exceeds 100, and is 100 at `i = n` |
| BatchWriter.RoundBelowHundred | src/app/dashboard/page.tsx:106-111 | the value before item `i` of `n` is below 100 exactly when `200 (n - i) > n` |
| BatchWriter.EarlyHundred | src/app/dashboard/page.tsx:106-111 | with 200 conversations the last one is announced at 100 |
| BatchWriter.FirstUnclassified | src/app/dashboard/page.tsx:119-124 | the first conversation whose classification throws; every earlier one is classified |
| BatchWriter.FirstFailedCommit | src/app/dashboard/page.tsx:137 | the first commit attempt that throws; every earlier one succeeds |
| BatchWriter.Plan | src/app/dashboard/page.tsx:95-159 | a run sends at most `n` conversations to the classifier and commits at most `ceil(n / 10)` batches; a finished run sends all and commits all; a failed run has sent 1 to 10 conversations since its last successful commit |
| BatchWriter.SuccessfulImport | src/app/dashboard/page.tsx:95-159 | a run succeeds exactly when every classification and every commit does, and then stores every staged write |
| BatchWriter.ImportedDocuments | src/app/dashboard/page.tsx:113-130 | after a successful run with distinct ids, each conversation's document holds that conversation with its label |
| BatchWriter.FailedImport | src/app/dashboard/page.tsx:119-155 | a failed run leaves exactly the first `10 committed` writes in the store; the staged ones after them are never committed |
| BatchWriter.EmptyImport | src/app/dashboard/page.tsx:98-155 | an empty archive makes no classification and no commit, succeeds, and reports 100 at once |
| BatchWriter.PlanAtTagFailure | src/app/dashboard/page.tsx:119-124 | a classifier error at conversation `i` ends the run after `i + 1` calls, with the batches committed before it |
| BatchWriter.PlanAtCommitFailure | src/app/dashboard/page.tsx:135-154 | a commit error ends the run with the batches before it committed |
| BatchWriter.PlanDone | src/app/dashboard/page.tsx:147-155 | with nothing failing, every conversation is classified and every batch committed |
| BatchWriter.Expected | src/app/dashboard/page.tsx:95-159 | the state after `i` conversations and `j` commits: one progress value and one classifier input per conversation, one record per commit, and 100 added at the end of a finished run |
| BatchWriter.ExpectedStage | src/app/dashboard/page.tsx:106-124 | handling one more conversation reports its progress value and sends its one-element classifier input |
| BatchWriter.ExpectedCommit | src/app/dashboard/page.tsx:135-154 | committing batch `j` applies exactly its writes to the store |
| BatchWriter.StageWrite | src/app/dashboard/page.tsx:126-130 | staging a conversation appends its labelled write to the batch |
| BatchWriter.Dashboard.SetProgress | src/app/dashboard/page.tsx:111 | the progress value becomes `p` and is recorded |
| BatchWriter.Dashboard.CommitBatch | src/app/dashboard/page.tsx:137 | a commit either applies every staged write or none and throws |
| BatchWriter.Dashboard.ClassifyNext | src/app/dashboard/page.tsx:106-124 | reports the progress of the conversations before `i`, sends conversation `i`'s title and id once, and on error leaves the state of a failed run |
| BatchWriter.Dashboard.StageNext | src/app/dashboard/page.tsx:126-145 | stages the labelled write and commits when ten are staged, keeping `10 totalBatches + batchCounter == i` and `batchCounter < 10` |
| BatchWriter.Dashboard.CommitStaged | src/app/dashboard/page.tsx:135-154 | commits the writes staged since the last commit, or leaves the state of a failed run |
| BatchWriter.Dashboard.ImportNext | src/app/dashboard/page.tsx:104-146 | one pass of the loop keeps the loop invariant, or leaves the state of a failed run |
| BatchWriter.Dashboard.FinishImport | src/app/dashboard/page.tsx:147-155 | commits a non-empty remainder only, then reports 100 |
| BatchWriter.Dashboard.SaveConversationsToFirestore | src/app/dashboard/page.tsx:95-159 | the run leaves exactly the state `Plan` and `Expected` describe, and returns its outcome |
| BatchWriter.Dashboard.ProcessFile | src/app/dashboard/page.tsx:74-82 | no file fails with 'No file selected'; a parse or normalisation error fails before anything changes; otherwise `total` is the number of conversations and they are saved |

## Left out

- Reading the file and `JSON.parse` are not modelled. `ProcessFile` receives the parse result: a list of export objects or a thrown error.
- `JSON.stringify` is not modelled. A classifier input is the `{title, conversation_id}` object (`Classifier.Snippet`), and the summariser receives the stored conversation itself.
- The classifier and the summariser are oracle parameters. Their answers, the HTTP calls and the API key are outside the model.
- The database SDK is not modelled: `writeBatch`, `doc`, `getDoc`, `getDocs`, `updateDoc`. `doc()` rejecting an empty or slash-containing id is not modelled. A signed-out user's collection path uses the text "undefined", as the template literal does.
- Network failures of the `users` queries in `GetUser` and `UpdateUserHasUploaded` are not modelled.
- Storage uploads, random UUIDs, React state wiring (`useQuery`, `useMutation`), toasts, routing and all JSX are not part of this model.
- The other pages and components, and src/lib/users.ts and src/lib/utils.ts, are not part of this model.
- Floating point is not modelled. Times are `real`. `Math.round` of `i / n * 100` is the exact half-up integer rounding, so floating-point rounding at .5 boundaries is not captured. NaN and zero times, which are falsy, both read as 0.
- `Object.values` order is taken as given: the export's `mapping` arrives as the list of node values in enumeration order. Integer-like keys, which JavaScript lists first, are not modelled.
- Export objects are assumed to carry `title`, `create_time`, `update_time` and `conversation_id`. The source copies them without a check, so missing ones would become `undefined`.
- A part of `content.parts` is either a string or null/undefined, which joins as empty text. Numbers and objects inside `parts` are not modelled.
- `BatchWriter.Dashboard.SaveConversationsToFirestore`: the loop body is split into the helper methods `ClassifyNext`, `StageNext`, `CommitStaged` and `FinishImport`. The staged batch is a `seq` of writes rather than an SDK batch object.
- The user's `has_uploaded` flag is not coupled to the import, because the import code never sets it.
