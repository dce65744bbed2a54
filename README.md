# ImpactIntelligence: a verified model of the document, analysis and chat core

ImpactIntelligence is a demo web application. A user uploads a requirements document (PDF, DOCX or plain text). The server stores it and runs a mock "impact analysis" that attaches impacted areas and related documents to it. The user can then chat about the document and turn impact areas into tasks. This project models, in Dafny, the parts of the application that decide what gets stored and what gets answered:

- the in-memory record store `MemStorage`: five tables keyed by auto-incremented ids, with creates, lookups, filters, a merge-update for tasks, and chat histories sorted by timestamp;
- the HTTP handlers for upload, document and analysis reads, task creation, chat posts and chat replies, each modelled as a method over the store that returns a `Response` value standing for the status code and JSON body;
- the analysis job `analyzeDocument`, modelled as one store transition, together with its fixed mock data;
- the upload middleware's mimetype allowlist, size limit and stored-file naming;
- the shared record shapes and the impact-area validity rule;
- the client-side rules:
  - the analyzing and polling flag;
  - the local chat session and its keyword replies;
  - the relationship-graph construction;
  - task-form defaults and validation;
  - impact-level badges and icons.

## Layout

- One module per source file:
  - `schema.dfy`: shared/schema.ts
  - `storage.dfy`: server/storage.ts
  - `routes.dfy`: server/routes.ts
  - `bedrock.dfy`: server/bedrock.ts
  - `multer_config.dfy`: server/multer-config.ts
  - `analysis_state.dfy`: useAnalysisState.ts
  - `chat_messages.dfy`: useChatMessages.ts
  - `relationship_graph.dfy`: DocumentRelationshipGraph.tsx
  - `task_dialog.dfy`: TaskDialog.tsx
  - `analysis_results.dfy`: AnalysisResults.tsx
- Three small helper modules:
  - `wrappers.dfy`: `Option`.
  - `text.dfy`: ASCII lower-casing, substring search, JavaScript `||` on strings, decimal rendering.
  - `sequences.dfy`: `filter`/`find`, what a nested `for i < j` loop appends, and their lemmas.
- `lifecycle.dfy` relates the analysis endpoint to the client's polling, and the task dialog's post to the task endpoint.

Modelling choices:

- **Store tables.** Each table is a `map<int, Record>` plus a counter. A JavaScript `Map` iterates in insertion order, and ids are issued in increasing order and never deleted, so "the values in insertion order" is the sequence of records with ids 1 up to the counter (`Storage.Rows`). The store invariant `Valid()` says each table holds exactly the ids below its counter, each record carries its own key, and chat timestamps never decrease along the ids.
- **Timestamps.** Timestamps are naturals. Every create takes the current time `now` as a parameter and requires it to be no earlier than the store's ghost `clock`.
- **Chat sort.** The sort of `getDocumentChatMessages` (a stable `Array.prototype.sort`) is a stable insertion sort. It is proved to order by timestamp, to permute its input, to keep equal timestamps in input order, and to return already-ordered input unchanged.
- **Handler requests.** A handler's request is a typed value: an `Option` field for each body property the handler reads, and plain parameters for path ids and for values that come from outside (the current time, the Drive task id, the upload stage's outcome).
- **Graph node ids.** A node id is kept as its tag and number (`RelationshipGraph.NodeId`). `IdText` renders the text the source builds, "doc-<id>" or "related-<i>", and is injective, so comparing ids compares their text.
- **Task due dates.** The insert schema that drizzle-zod derives for the `timestamp` column `dueDate` accepts only a `Date` (or null). A JSON body can carry only a string there, and the dialog always sends the date as one (client/src/lib/types.ts:58, client/src/components/TaskDialog.tsx:64-67). The model follows the code: Routes.ParseTask rejects any body with a due date string. So every task the dialog posts is answered 400 "Invalid task data" (Lifecycle.SubmitTask).
- **Analysis polling.** The analysis endpoint answers a placeholder when no result exists (server/routes.ts:65-75), and the hook treats any answer as finished (client/src/hooks/useAnalysisState.ts:22-23). So polling stops after the first answer (Lifecycle.PollAnalysis).
- **Analysis job timing.** The upload handler fires the analysis job and does not wait for it. The model runs the job to completion right after the document is created, at a time `analysisTime`.

## Model

| member | source | states |
|---|---|---|
| Schema.NewUser | server/storage.ts:93-98 | the stored user is the insert record plus the issued id |
| Schema.NewDocument | server/storage.ts:101-113 | the stored document carries the issued id and the upload time; every inserted field is kept; a missing description or content becomes null, not a default |
| Schema.NewAnalysisResult | server/storage.ts:126-138 | the stored result is the insert record plus the issued id and the analysis time |
| Schema.NewTask | server/storage.ts:153-168 | whatever the input, the stored task's status is "open"; the insert fields are kept and missing ones stay null |
| Schema.NewChatMessage | server/storage.ts:196-209 | role and content are stored as given; an absent document id is stored as null; the message gets the issued id and the current time |
| Schema.ApplyTaskUpdate | server/storage.ts:180-193 | a field given in the update replaces the stored one (a null included); every other field, including id, status and createdAt, is unchanged |
| Schema.EmptyUpdateIsIdentity | server/storage.ts:186-189 | an update that gives no field returns the task unchanged |
| Schema.ApplyTaskUpdateIdempotent | server/storage.ts:186-189 | applying the same update twice equals applying it once |
| Schema.ValidityIgnoresConflictAndRecommendation | shared/schema.ts:95-106 | conflict and recommendation are optional: an area's validity (level in High/Medium/Low, contact email valid) does not depend on them |
| Storage.MemStorage.constructor | server/storage.ts:67-80 | a new store has five empty tables and every counter at 1 |
| Storage.MemStorage.GetUser | server/storage.ts:83-85 | a user is found exactly for ids 1 up to the user counter, and it is the one stored under that id |
| Storage.MemStorage.GetUserByUsername | server/storage.ts:87-91 | none exactly when no stored user has the name; otherwise a stored user with that name, and no user with a smaller id has it |
| Storage.MemStorage.CreateUser | server/storage.ts:93-98 | the user counter is the new id and is then incremented; the user is stored under it; all older ids are smaller; no other table changes |
| Storage.MemStorage.CreateDocument | server/storage.ts:101-113 | fresh id as for users; the document is stored under it; no other table changes; each user's document list grows by exactly this document when the user owns it, and is unchanged otherwise |
| Storage.MemStorage.GetDocument | server/storage.ts:115-117 | found exactly for ids 1 up to the document counter, and it is the stored record |
| Storage.MemStorage.GetUserDocuments | server/storage.ts:119-123 | exactly the stored documents with that userId (both directions), in increasing id order |
| Storage.MemStorage.CreateAnalysisResult | server/storage.ts:126-138 | fresh id; the result is stored under it; no other table changes; a document that already had a result keeps returning that same first result; a document without one now returns the new one |
| Storage.MemStorage.GetAnalysisResult | server/storage.ts:140-142 | found exactly for ids 1 up to the result counter |
| Storage.MemStorage.GetDocumentAnalysisResult | server/storage.ts:144-150 | none exactly when no stored result is for the document; otherwise a stored result for it whose id is the smallest such (earliest inserted) |
| Storage.MemStorage.CreateTask | server/storage.ts:153-168 | fresh id; the task is stored with status "open"; no other table changes; each document's task list grows by exactly this task when it belongs there |
| Storage.MemStorage.GetTask | server/storage.ts:170-172 | found exactly for ids 1 up to the task counter |
| Storage.MemStorage.GetDocumentTasks | server/storage.ts:174-178 | exactly the stored tasks of the document (both directions), in increasing id order |
| Storage.MemStorage.UpdateTask | server/storage.ts:180-193 | a missing id returns none and changes nothing; otherwise the merged task is stored under the same id and returned; no other task, table or counter changes |
| Storage.MemStorage.CreateChatMessage | server/storage.ts:196-209 | fresh id and current time; the message is stored under the id; no other table changes; each document's history gains this message at its end exactly when the message belongs to it; messages without a document join no history |
| Storage.MemStorage.GetDocumentChatMessages | server/storage.ts:211-215 | exactly the stored messages of the document (both directions), in non-decreasing timestamp order, with ties (and every message) in insertion order |
| Storage.SortByTimeOrdered | server/storage.ts:214 | the sort's output is in non-decreasing timestamp order |
| Storage.SortByTimePermutes | server/storage.ts:214 | the sort's output is a permutation of its input |
| Storage.SortByTimeStable | server/storage.ts:214 | the sort is stable: messages with equal timestamps keep their input order |
| Storage.SortByTimeOfOrdered | server/storage.ts:214 | input that is already in timestamp order comes back unchanged |
| Storage.HistoryOfOrdered | server/storage.ts:211-215 | on timestamp-ordered rows, the history of a document is the filter by that document |
| Storage.HistoryAfterAppend | server/storage.ts:196-215 | a message appended with the latest timestamp extends one document's history at its end and leaves all others unchanged |
| Storage.FindRowsAppend | server/storage.ts:144-150 | appending a row keeps the first match of a `find`; the new row is found only when nothing earlier matches |
| Storage.FilterRowsAppend | server/storage.ts:119-123 | appending a row extends a `filter` by exactly that row when it matches |
| MulterConfig.FileFilter | server/multer-config.ts:37-50 | a file is accepted exactly when its mimetype is application/pdf, the DOCX mimetype or text/plain; any other is rejected with the "Invalid file type" message |
| MulterConfig.MaxFileSizeInBytes | server/multer-config.ts:57 | the size limit is 10·1024·1024 = 10485760 bytes |
| MulterConfig.ExtName | server/multer-config.ts:20 | `path.extname` of the last segment (after the last "/"): non-empty exactly when that segment has a "." that is neither its only, leading one nor part of ".."; then it is the end of the segment from its last "." (starting with ".", with no later "." and no "/") |
| MulterConfig.ExtNameOfSuffixed | server/multer-config.ts:20 | a name ending in a "/"-free part that does not start with "." and then an extension has that extension |
| MulterConfig.StoredFilenameKeepsExtension | server/multer-config.ts:18-21 | the stored name "fieldname-suffix" plus the original's extension has the original's extension, whatever the field name, when the unique suffix has no "/" |
| MulterConfig.StoredFilenameWithoutExtension | server/multer-config.ts:18-21 | when the original has no extension and neither the field name nor the suffix has a ".", the stored name has no extension |
| MulterConfig.Receive | server/multer-config.ts:14-59 | no file passes with no file; a disallowed type fails with the filter's message; a file over the limit fails; an allowed file within the limit always passes with a stored file; a passed file keeps its field name, original name, type and size and is stored as uploadsDir/stored filename |
| Bedrock.MockImpactedAreasWellFormed | server/bedrock.ts:8-42 | every mock area has a level in High/Medium/Low, is valid when its three contact emails are, and carries exactly one of conflict or recommendation |
| Bedrock.MockRelatedDocumentsTaggedByType | server/bedrock.ts:44-63 | each mock related document has two tags, the first being its own type |
| Bedrock.MockAnalysis | server/bedrock.ts:91-96 | the job's insert record is for the given document, with the level "Medium" (a valid level), the mock impacted areas and the mock related documents |
| Bedrock.DocumentNotFoundInjective | server/bedrock.ts:79-82 | the "Document not found: <id>" message names the id: different ids give different messages |
| Bedrock.AnalyzeDocument | server/bedrock.ts:74-105 | an unknown id fails with "Document not found: <id>" and changes nothing; a known one gets exactly one new result (that document, "Medium", the mock areas and related documents); nothing else changes; afterwards the document has a result, and a result it already had still comes first |
| Bedrock.GenerateChatResponse | server/bedrock.ts:115-134 | the reply is non-empty |
| Bedrock.GenerateChatResponseIgnoresInput | server/bedrock.ts:115-134 | the reply is the same for every message, document and history |
| Routes.StatusCode | server/routes.ts:15-195 | the status codes are in the HTTP range, and a code is below 300 exactly for the 200 and 201 replies |
| Routes.UploadedDocument | server/routes.ts:19-28 | the upload is filed under user 1; title is the form title if non-empty, else the original file name; description is the form description if non-empty, else ""; content is the form content if non-empty, else the extraction placeholder; type and path come from the stored file |
| Routes.UploadDocument | server/routes.ts:12-40 | an upload-stage error, or a request without a file (400 "No file uploaded"), changes nothing; otherwise 201 with the created document, and the analysis job's result is stored whatever the reply |
| Routes.GetDocument | server/routes.ts:43-57 | 200 with the stored document exactly when the id is stored, else 404 "Document not found" |
| Routes.PlaceholderAnalysis | server/routes.ts:65-75 | the placeholder has id 0, the requested document id, level "Medium", no areas and no related documents |
| Routes.PlaceholderIsNotStored | server/routes.ts:65-75 | no stored result equals the placeholder (stored ids start at 1) |
| Routes.GetAnalysis | server/routes.ts:60-83 | always 200; the stored first result when there is one, otherwise the placeholder for the requested id |
| Routes.ParseTask | server/routes.ts:88 | a task body parses exactly when it has a document id and a title and no due date string (the schema wants a `Date`); the other optional fields are carried over as given, and a parsed task has no due date |
| Routes.CreateTask | server/routes.ts:86-114 | an invalid body is 400 "Invalid task data" and changes nothing; otherwise 201 with the new task, whose Drive id is the one the Drive service returned (it replaces any in the body) and whose status is "open" |
| Routes.GetTasks | server/routes.ts:117-126 | always 200 with exactly the document's tasks, in id order |
| Routes.GetChat | server/routes.ts:129-138 | always 200 with the store's history of the document: exactly the document's messages, in timestamp order, and in id order among them |
| Routes.ParseChatMessage | server/routes.ts:145-148 | a chat body parses exactly when it has a role and content; the document id is the path's, whatever the body says |
| Routes.PostChat | server/routes.ts:141-161 | an invalid body is 400 "Invalid message data" and changes nothing; otherwise 201 with the stored message, filed under the path's document and appended to that document's history |
| Routes.LastUserMessage | server/routes.ts:176 | none exactly when no message has role "user"; otherwise a message with role "user" that no later message with role "user" follows |
| Routes.LastUserMessageSkipsAssistant | server/routes.ts:176-190 | appending an assistant reply does not change which message is answered next |
| Routes.Respond | server/routes.ts:164-197 | with no user message in the history or no such document: 400 and no change; otherwise exactly one message with the conventional role "assistant", answering the last user message, is stored, appended to the document's history and returned with 200 |
| Routes.ReportedLevel | server/routes.ts:211 | `analysis?.impactLevel \|\| 'Medium'`: never empty; the analysis's own level when it has a non-empty one; "Medium" without an analysis or with an empty level |
| Routes.ReportedAreaCount | server/routes.ts:211 | the number of impacted areas, 0 without an analysis |
| Routes.GenerateAIResponse | server/routes.ts:204-228 | on the lower-cased message, the first group mentioned picks the reply: impact/analysis, then conflict/problem, then recommend/suggest/solution, then who/contact/team; with none, the default; each reply occurs exactly under its condition |
| Routes.RepliesDistinct | server/routes.ts:210-227 | the five replies differ, so each reply identifies its keyword group |
| Routes.GenerateAIResponseIgnoresCase | server/routes.ts:208 | the reply does not depend on letter case |
| Routes.ImpactReplyReports | server/routes.ts:210-212 | the impact reply names the document title, the reported level and the area count |
| AnalysisState.AnalyzingAfter | client/src/hooks/useAnalysisState.ts:18-25 | any analysis ends analyzing; a loaded document without analysis starts it; neither leaves the flag as it was |
| AnalysisState.AnalyzingAfterExactly | client/src/hooks/useAnalysisState.ts:18-25 | after the effect the flag is on exactly when no analysis is loaded and either the document is loaded or the flag was on |
| AnalysisState.AnalyzingAfterIdempotent | client/src/hooks/useAnalysisState.ts:18-25 | re-running the effect on the same inputs changes nothing |
| AnalysisState.IsLoading | client/src/hooks/useAnalysisState.ts:28 | loading exactly when either query is loading |
| AnalysisState.AnalysisStateHook.constructor | client/src/hooks/useAnalysisState.ts:5 | a new hook is not analyzing |
| AnalysisState.AnalysisStateHook.RefetchInterval | client/src/hooks/useAnalysisState.ts:15 | polling every 2000 ms exactly while analyzing, otherwise off |
| AnalysisState.AnalysisStateHook.Effect | client/src/hooks/useAnalysisState.ts:18-25 | the flag becomes `AnalyzingAfter` of its old value and the two inputs |
| ChatMessages.GetAIResponse | client/src/hooks/useChatMessages.ts:43-55 | on the lower-cased message, hello/hi wins over "impact", which wins over thanks/"thank you"; with none, the help text; each reply occurs exactly under its condition |
| ChatMessages.GetAIResponseIgnoresCase | client/src/hooks/useChatMessages.ts:44 | the reply does not depend on letter case |
| ChatMessages.GreetingInsideWordShadowsImpact | client/src/hooks/useChatMessages.ts:45-49 | the greeting test matches "hi" inside words, so "Think about the impact" gets the greeting |
| ChatMessages.ChatSession.constructor | client/src/hooks/useChatMessages.ts:5-8 | a session starts with no messages, not sending, not loading, no error |
| ChatMessages.ChatSession.BeginSend | client/src/hooks/useChatMessages.ts:12-22 | sending is on, the error is cleared, the user's message is appended at the end |
| ChatMessages.ChatSession.FinishSend | client/src/hooks/useChatMessages.ts:27-39 | the reply to the content is appended at the end and sending is off |
| ChatMessages.ChatSession.SendMessage | client/src/hooks/useChatMessages.ts:11-40 | exactly two messages are appended, the user's and then the reply; earlier messages are unchanged; the session ends not sending and without error |
| RelationshipGraph.ColorByTypeCases | client/src/components/DocumentRelationshipGraph.tsx:124-144 | case-insensitively, each of the ten type names gets its colour, and a type is gray exactly when it is none of them |
| RelationshipGraph.ColorByTypeIgnoresCase | client/src/components/DocumentRelationshipGraph.tsx:125 | the colour does not depend on letter case |
| RelationshipGraph.BrdIsGray | client/src/components/DocumentRelationshipGraph.tsx:141-142 | "BRD" maps to gray |
| RelationshipGraph.IdTextInjective | client/src/components/DocumentRelationshipGraph.tsx:42-51 | two node ids have the same text exactly when they are the same id: "doc-<id>" is never a "related-<i>", and different numbers give different text |
| RelationshipGraph.RelationshipStrength | client/src/components/DocumentRelationshipGraph.tsx:146-149 | min(1, \|tags\|/5): in [0, 1], 1 from five tags on |
| RelationshipGraph.SharedTagsMembers | client/src/components/DocumentRelationshipGraph.tsx:151-153 | a tag is among the shared tags exactly when it occurs in both lists |
| RelationshipGraph.SharedTagsCount | client/src/components/DocumentRelationshipGraph.tsx:151-153 | a tag of the first list that occurs in the second is kept as many times as it occurs in the first; any other tag not at all |
| RelationshipGraph.SharedTagsAppend | client/src/components/DocumentRelationshipGraph.tsx:151-153 | the shared tags of a concatenation are the shared tags of each part, concatenated in order |
| RelationshipGraph.SharedTagsEmptyIff | client/src/components/DocumentRelationshipGraph.tsx:151-153 | no shared tags exactly when no tag of the first list occurs in the second |
| RelationshipGraph.GraphNodesShape | client/src/components/DocumentRelationshipGraph.tsx:40-56 | n + 1 nodes: "doc-<id>" of type "current" first, then "related-<i>" per related document in order with its title, type and colour; no two nodes have the same id text |
| RelationshipGraph.CurrentLinksFirst | client/src/components/DocumentRelationshipGraph.tsx:59-66 | the first n links join the current node to each related node in order, with strength min(1, \|tags\|/5) in [0, 1] |
| RelationshipGraph.PairLinkIff | client/src/components/DocumentRelationshipGraph.tsx:69-80 | there is a link related-i → related-j exactly when i < j and the two share a tag; its strength is \|shared\|/3 |
| Sequences.PairEntriesSound | client/src/components/DocumentRelationshipGraph.tsx:69-80 | whatever a nested loop over i < j appends comes from some round (i, j) with i < j |
| Sequences.PairEntriesComplete | client/src/components/DocumentRelationshipGraph.tsx:69-80 | whatever a round (i, j) with i < j appends is in the nested loop's output |
| RelationshipGraph.PairLinksSound | client/src/components/DocumentRelationshipGraph.tsx:69-80 | every pair link joins some i < j that share a tag |
| RelationshipGraph.PairLinksComplete | client/src/components/DocumentRelationshipGraph.tsx:69-80 | every pair i < j that shares a tag gets its link |
| RelationshipGraph.BuildNodes | client/src/components/DocumentRelationshipGraph.tsx:40-56 | the loop builds exactly the node list of the graph |
| RelationshipGraph.BuildCurrentLinks | client/src/components/DocumentRelationshipGraph.tsx:59-66 | the loop builds exactly the current-to-related links |
| RelationshipGraph.BuildPairLinks | client/src/components/DocumentRelationshipGraph.tsx:69-80 | the nested loop builds exactly the pair links, row by row |
| RelationshipGraph.BuildRowLinks | client/src/components/DocumentRelationshipGraph.tsx:70-79 | the inner loop builds exactly the links of one row |
| RelationshipGraph.Graph.Compute | client/src/components/DocumentRelationshipGraph.tsx:36-84 | with no related documents nothing is recomputed; otherwise nodes and links become the graph of the inputs; the selection is untouched |
| RelationshipGraph.Toggle | client/src/components/DocumentRelationshipGraph.tsx:155-157 | clicking the selected node clears the selection; clicking any other selects it |
| RelationshipGraph.Graph.HandleNodeClick | client/src/components/DocumentRelationshipGraph.tsx:155-157 | the selection toggles; nodes and links are untouched |
| TaskDialog.FormErrors | client/src/components/TaskDialog.tsx:31-36 | there are no errors exactly when title ≥ 5, description ≥ 10, assignee ≥ 1 and due date ≥ 1 characters; each message appears exactly when its field fails |
| TaskDialog.DefaultValues | client/src/components/TaskDialog.tsx:51-59 | "Review impact on <name>", the conflict if non-empty else the recommendation else "", the contact email, and an empty due date; all empty without an area |
| TaskDialog.DefaultsNeverValid | client/src/components/TaskDialog.tsx:31-57 | the defaults never validate, because the due date is empty |
| TaskDialog.SubmitPayload | client/src/components/TaskDialog.tsx:64-67 | the posted body is the form values plus the document id |
| TaskDialog.TaskDialogState.OnSubmit | client/src/components/TaskDialog.tsx:61-88 | posts the form values plus the document id; isSubmitting ends false whatever the outcome; the dialog closes only on success |
| TaskDialog.TaskDialogState.BeginSubmit | client/src/components/TaskDialog.tsx:62-67 | isSubmitting is on while the payload is posted |
| TaskDialog.TaskDialogState.EndSubmit | client/src/components/TaskDialog.tsx:77-87 | isSubmitting is off afterwards; the dialog closes only on success |
| AnalysisResults.BadgeColor | client/src/components/AnalysisResults.tsx:11-22 | case-insensitively high is red, medium yellow, low green; any other level is blue |
| AnalysisResults.ImpactIcon | client/src/components/AnalysisResults.tsx:24-35 | case-insensitively high is "error", medium "warning", low and any other level "info" |
| AnalysisResults.SchemaLevelsAreNotBlue | client/src/components/AnalysisResults.tsx:11-35 | the three schema levels never get the blue badge, and only "Low" gets the info icon |
| AnalysisResults.BadgeAndIconAgree | client/src/components/AnalysisResults.tsx:11-35 | the icon is "info" exactly when the badge is green or blue |
| AnalysisResults.Detail | client/src/components/AnalysisResults.tsx:87-96 | the box is shown exactly when conflict or recommendation is non-empty; a non-empty conflict wins for both caption and text |
| AnalysisResults.TaskDefaultsFollowDetail | client/src/components/AnalysisResults.tsx:87-96 | a task opened from an area starts with the detail box's text as its description, or "" without a box |
| AnalysisResults.MockAreasDetail | client/src/components/AnalysisResults.tsx:87-96 | of the mock areas, the first shows a conflict and the other two a recommendation |
| AnalysisResults.CreateNewTaskTarget | client/src/components/AnalysisResults.tsx:46-50 | "Create New Task" opens the first area, and only when there is one |
| Lifecycle.AnyAnalysisEndsAnalyzing | client/src/hooks/useAnalysisState.ts:22-23 | once the analysis query holds any analysis, the hook is not analyzing |
| Lifecycle.PollAnalysis | server/routes.ts:60-83 | the analysis endpoint never answers "absent" (the placeholder stands in), so after one poll the hook is not analyzing and polling is off |
| Lifecycle.DialogTasksNeverParse | server/routes.ts:88 | no body the task dialog posts parses as a task, because it always carries the due date as a string |
| Lifecycle.SubmitTask | client/src/components/TaskDialog.tsx:61-67 | every task the dialog submits is answered 400 "Invalid task data" and the store is unchanged |

## Left out

- Only ASCII letters are lower-cased. JavaScript's `toLowerCase` also folds non-ASCII letters.
- Ids are integers. `parseInt` on a non-numeric path segment gives NaN, which matches no record. The model has no NaN id.
- HTTP transport, Express wiring and `res.json` serialisation are left out. Dates travel as naturals, not ISO strings.
- The 500 catch-all branches of every handler are left out. In the model nothing the handlers call can throw, except the upload stage, which is `Received.Failed`.
- Multer's behaviour beyond the configured parts is left out: streaming, the "Unexpected field" error for a file under another field name, and the `mkdirSync` of the uploads directory. The working directory is the `uploadsDir` parameter. The unique suffix (from `Date.now` and `Math.random`) is a parameter.
- MulterConfig.ExtName: follows `path.extname` for names without trailing slashes; a name ending in `/` gives "" here, while Node looks at the segment before the slash.
- The internals of zod and drizzle-zod are left out. Email validity is the uninterpreted predicate `isEmail`. Insert parsing is modelled as "required fields present". RelatedDocument validity (string fields, a list of string tags) holds by typing.
- TaskDialog.FormErrors: counts the characters (Unicode scalar values) of each field. zod's `.min(n)` counts UTF-16 code units, so a title such as "𝐀𝐁𝐂" (three characters, six code units) passes the dialog's check but fails the model's.
- Concurrency is left out. The fire-and-forget analysis job runs at once, in sequence, after the document is created. Overlapping requests are not modelled.
- Delays and logging in bedrock.ts, google-drive.ts and useChatMessages.ts are left out.
- The Google Drive call is a parameter (`driveTaskId`), as an opaque string.
- Routes.UploadDocument: because the job runs at once, a placeholder analysis between an upload and its job is never observed in the model. Routes.GetAnalysis still models the placeholder for any document without a result.
- ChatMessages.ChatSession.SendMessage: nothing in the model throws, so the `catch` that sets "Failed to send message" is not reachable here.
- The timestamps of local chat messages are caller-supplied strings, standing in for `new Date().toISOString()`.
- The whole session message list is modelled, not React's asynchronous state batching.
- RelationshipGraph.Graph.HandleNodeClick compares nodes by value. The source compares object identity. Within one computed graph the node ids are distinct (RelationshipGraph.GraphNodesShape), so the two agree there.
- The graph effect's `!currentDocument` guard is left out. The component's props type makes the document required.
- Graph layout (`renderSimpleGraph`), stroke widths and SVG rendering are floating-point presentation and are left out.
- Link strengths are exact rationals rather than floating-point numbers.
- TaskDialog toasts, query invalidation and the POST itself are left out. The POST's outcome is the `postSucceeded` parameter.
- JSX rendering, CSS classes and the other components are presentation and are left out.
- The local chat hook builds messages with `createdAt` and `session_id`, which is not the shared ChatMessage shape. The hook's own shape, ChatMessages.SessionMessage, is modelled instead.
