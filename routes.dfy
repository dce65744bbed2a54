/**
 * The HTTP handlers (server/routes.ts) as methods over the store. A handler's
 * reply is a `Response` whose constructor stands for the status code and
 * whose payload is the JSON body.
 */
module Routes {
  import opened Wrappers
  import opened Text
  import opened Sequences
  import opened Schema
  import opened Storage
  import opened MulterConfig
  import Bedrock

  datatype Response<T> =
    | Ok(body: T)              // 200
    | Created(body: T)         // 201
    | BadRequest(message: string)
    | NotFound(message: string)
    | ServerError(message: string)

  function StatusCode<T>(r: Response<T>): (code: int)
    ensures 200 <= code < 600
    ensures code < 300 <==> r.Ok? || r.Created?
  {
    match r
    case Ok(_) => 200
    case Created(_) => 201
    case BadRequest(_) => 400
    case NotFound(_) => 404
    case ServerError(_) => 500
  }

  // ------------------------------------------------------------- upload

  /** The text fields of the multipart upload form. */
  datatype UploadForm = UploadForm(title: Option<string>, description: Option<string>, content: Option<string>)

  /** The demo server files every upload under user 1. */
  const DemoUserId: int := 1
  const ExtractedContentPlaceholder: string := "Document content would be extracted here"

  /**
   * The record an upload asks the store to create: a non-empty form title
   * wins over the original file name, a non-empty form description over "".
   */
  function UploadedDocument(file: UploadedFile, form: UploadForm): (ins: InsertDocument)
    ensures ins.userId == DemoUserId
    ensures Truthy(form.title) ==> ins.title == form.title.value
    ensures !Truthy(form.title) ==> ins.title == file.originalname
    ensures ins.description.Some?
    ensures Truthy(form.description) ==> ins.description.value == form.description.value
    ensures !Truthy(form.description) ==> ins.description.value == ""
    ensures ins.fileType == file.mimetype && ins.filePath == file.path
    ensures ins.contentText.Some?
    ensures Truthy(form.content) ==> ins.contentText.value == form.content.value
    ensures !Truthy(form.content) ==> ins.contentText.value == ExtractedContentPlaceholder
  {
    InsertDocument(
      DemoUserId,
      OptOrElse(form.title, file.originalname),
      Some(OptOrElse(form.description, "")),
      file.mimetype,
      file.path,
      Some(OptOrElse(form.content, ExtractedContentPlaceholder)))
  }

  const NoFileUploaded: string := "No file uploaded"

  /**
   * `POST /api/documents/upload`. A failure of the upload stage and a request
   * without a file change nothing; otherwise the document is created, the
   * analysis job runs (its outcome is only logged) and the reply is 201 with
   * the document. `analysisTime` is when the job gets to write its result.
   */
  method UploadDocument(s: MemStorage, received: Received, form: UploadForm, now: Timestamp, analysisTime: Timestamp)
    returns (resp: Response<Document>)
    requires s.Valid() && s.clock <= now <= analysisTime
    modifies s
    ensures s.Valid()
    ensures received.Failed? ==> resp == ServerError(received.message) && unchanged(s)
    ensures received == Passed(None) ==> resp == BadRequest(NoFileUploaded) && unchanged(s)
    ensures received.Passed? && received.file.Some? ==>
              && resp == Created(NewDocument(UploadedDocument(received.file.value, form), old(s.currentIds.document), now))
              && s.documents == old(s.documents)[resp.body.id := resp.body]
              && s.analysisResults == old(s.analysisResults)[old(s.currentIds.analysisResult) :=
                   NewAnalysisResult(Bedrock.MockAnalysis(resp.body.id), old(s.currentIds.analysisResult), analysisTime)]
              && s.GetDocumentAnalysisResult(resp.body.id).Some?
              && s.users == old(s.users) && s.tasks == old(s.tasks) && s.chatMessages == old(s.chatMessages)
  {
    if received.Failed? {
      return ServerError(received.message);
    }
    if received.file.None? {
      return BadRequest(NoFileUploaded);
    }
    var document := s.CreateDocument(UploadedDocument(received.file.value, form), now);
    var _ := Bedrock.AnalyzeDocument(s, document.id, analysisTime);
    resp := Created(document);
  }

  // ---------------------------------------------------------- documents

  const DocumentNotFound: string := "Document not found"

  /** `GET /api/documents/:id`: the stored document, or 404. */
  method GetDocument(s: MemStorage, documentId: int) returns (resp: Response<Document>)
    requires s.Valid()
    ensures resp.Ok? <==> documentId in s.documents
    ensures resp.Ok? ==> resp.body == s.documents[documentId] && resp.body.id == documentId
    ensures !resp.Ok? ==> resp == NotFound(DocumentNotFound)
  {
    var document := s.GetDocument(documentId);
    if document.None? {
      return NotFound(DocumentNotFound);
    }
    resp := Ok(document.value);
  }

  // ----------------------------------------------------------- analysis

  /** What `GET /api/documents/:id/analysis` answers before any result exists. */
  function PlaceholderAnalysis(documentId: int, now: Timestamp): (a: AnalysisResult)
    ensures a.id == 0 && a.documentId == documentId && a.impactLevel == "Medium"
    ensures a.impactedAreas == [] && a.relatedDocuments == [] && a.analysisDate == now
  {
    AnalysisResult(0, documentId, "Medium", [], [], now)
  }

  /** No stored result has id 0, so the placeholder is never mistaken for one. */
  lemma PlaceholderIsNotStored(s: MemStorage, documentId: int, now: Timestamp)
    requires s.Valid()
    ensures forall k :: k in s.analysisResults ==> s.analysisResults[k] != PlaceholderAnalysis(documentId, now)
  {
    forall k | k in s.analysisResults ensures s.analysisResults[k] != PlaceholderAnalysis(documentId, now) {
      assert s.analysisResults[k].id == k && k >= 1;
    }
  }

  /**
   * `GET /api/documents/:id/analysis`: always 200, carrying the first stored
   * result for the document, or the placeholder when there is none.
   */
  method GetAnalysis(s: MemStorage, documentId: int, now: Timestamp) returns (resp: Response<AnalysisResult>)
    requires s.Valid()
    ensures resp.Ok? && resp.body.documentId == documentId
    ensures s.GetDocumentAnalysisResult(documentId).Some? ==> resp.body == s.GetDocumentAnalysisResult(documentId).value
    ensures s.GetDocumentAnalysisResult(documentId).None? ==> resp.body == PlaceholderAnalysis(documentId, now)
  {
    var result := s.GetDocumentAnalysisResult(documentId);
    if result.None? {
      return Ok(PlaceholderAnalysis(documentId, now));
    }
    resp := Ok(result.value);
  }

  // -------------------------------------------------------------- tasks

  /**
   * The JSON body of `POST /api/tasks`, as far as the insert schema reads it.
   * JSON has no dates: a due date arrives as a string, or is absent or null
   * (`None`).
   */
  datatype TaskBody = TaskBody(
    documentId: Option<int>, title: Option<string>, description: Option<string>,
    assignee: Option<string>, dueDate: Option<string>, googleDriveTaskId: Option<string>)

  /**
   * `insertTaskSchema.parse`: the document id and the title are required, the
   * rest may be missing. The schema wants a `Date` for the due date, which no
   * JSON body carries, so a body with a due date string is rejected and a
   * parsed task never has a due date.
   */
  function ParseTask(body: TaskBody): (r: Option<InsertTask>)
    ensures r.Some? <==> body.documentId.Some? && body.title.Some? && body.dueDate.None?
    ensures r.Some? ==> r.value.documentId == body.documentId.value && r.value.title == body.title.value
    ensures r.Some? ==> r.value.description == body.description && r.value.assignee == body.assignee
    ensures r.Some? ==> r.value.dueDate.None? && r.value.googleDriveTaskId == body.googleDriveTaskId
  {
    if body.documentId.None? || body.title.None? || body.dueDate.Some? then None
    else Some(InsertTask(body.documentId.value, body.title.value, body.description, body.assignee,
                         None, body.googleDriveTaskId))
  }

  const InvalidTaskData: string := "Invalid task data"

  /**
   * `POST /api/tasks`: an invalid body is 400 and changes nothing; otherwise
   * the task is stored with the id the Drive service returned (which
   * replaces any id in the body) and the reply is 201 with it.
   */
  method CreateTask(s: MemStorage, body: TaskBody, driveTaskId: string, now: Timestamp) returns (resp: Response<Task>)
    requires s.Valid() && s.clock <= now
    modifies s
    ensures s.Valid()
    ensures ParseTask(body).None? ==> resp == BadRequest(InvalidTaskData) && unchanged(s)
    ensures ParseTask(body).Some? ==>
              && resp == Created(NewTask(ParseTask(body).value.(googleDriveTaskId := Some(driveTaskId)),
                                         old(s.currentIds.task), now))
              && resp.body.status == DefaultTaskStatus
              && s.tasks == old(s.tasks)[resp.body.id := resp.body]
              && (forall d :: s.GetDocumentTasks(d) == old(s.GetDocumentTasks(d)) + (if resp.body.documentId == d then [resp.body] else []))
              && s.users == old(s.users) && s.documents == old(s.documents)
              && s.analysisResults == old(s.analysisResults) && s.chatMessages == old(s.chatMessages)
  {
    var taskData := ParseTask(body);
    if taskData.None? {
      return BadRequest(InvalidTaskData);
    }
    var task := s.CreateTask(taskData.value.(googleDriveTaskId := Some(driveTaskId)), now);
    resp := Created(task);
  }

  /** `GET /api/documents/:id/tasks`: always 200, with the document's tasks in creation order. */
  method GetTasks(s: MemStorage, documentId: int) returns (resp: Response<seq<Task>>)
    requires s.Valid()
    ensures resp.Ok?
    ensures forall k :: k in s.tasks && s.tasks[k].documentId == documentId ==> s.tasks[k] in resp.body
    ensures forall i :: 0 <= i < |resp.body| ==> resp.body[i] in s.tasks.Values && resp.body[i].documentId == documentId
    ensures forall i, j :: 0 <= i < j < |resp.body| ==> resp.body[i].id < resp.body[j].id
  {
    var tasks := s.GetDocumentTasks(documentId);
    resp := Ok(tasks);
  }

  // --------------------------------------------------------------- chat

  /** `GET /api/documents/:id/chat`: always 200, with the document's history oldest first. */
  method GetChat(s: MemStorage, documentId: int) returns (resp: Response<seq<ChatMessage>>)
    requires s.Valid()
    ensures resp.Ok? && TimeOrdered(resp.body)
    ensures forall k :: k in s.chatMessages && s.chatMessages[k].documentId == Some(documentId) ==> s.chatMessages[k] in resp.body
    ensures forall i :: 0 <= i < |resp.body| ==> resp.body[i] in s.chatMessages.Values && resp.body[i].documentId == Some(documentId)
    ensures forall i, j :: 0 <= i < j < |resp.body| ==> resp.body[i].id < resp.body[j].id
    ensures resp == Ok(s.GetDocumentChatMessages(documentId))
  {
    var messages := s.GetDocumentChatMessages(documentId);
    resp := Ok(messages);
  }

  /** The JSON body of `POST /api/documents/:id/chat`. */
  datatype ChatBody = ChatBody(documentId: Option<int>, role: Option<string>, content: Option<string>)

  /** `insertChatMessageSchema.parse({ ...body, documentId })`: the id from the path replaces the body's. */
  function ParseChatMessage(documentId: int, body: ChatBody): (r: Option<InsertChatMessage>)
    ensures r.Some? <==> body.role.Some? && body.content.Some?
    ensures r.Some? ==> r.value == InsertChatMessage(Some(documentId), body.role.value, body.content.value)
  {
    if body.role.None? || body.content.None? then None
    else Some(InsertChatMessage(Some(documentId), body.role.value, body.content.value))
  }

  const InvalidMessageData: string := "Invalid message data"

  /**
   * `POST /api/documents/:id/chat`: an invalid body is 400 and changes
   * nothing; otherwise the message is stored under the path's document and
   * becomes the last entry of that document's history.
   */
  method PostChat(s: MemStorage, documentId: int, body: ChatBody, now: Timestamp) returns (resp: Response<ChatMessage>)
    requires s.Valid() && s.clock <= now
    modifies s
    ensures s.Valid()
    ensures ParseChatMessage(documentId, body).None? ==> resp == BadRequest(InvalidMessageData) && unchanged(s)
    ensures ParseChatMessage(documentId, body).Some? ==>
              && resp.Created?
              && resp.body == NewChatMessage(ParseChatMessage(documentId, body).value, old(s.currentIds.chatMessage), now)
              && resp.body.documentId == Some(documentId)
              && s.chatMessages == old(s.chatMessages)[resp.body.id := resp.body]
              && s.GetDocumentChatMessages(documentId) == old(s.GetDocumentChatMessages(documentId)) + [resp.body]
              && s.users == old(s.users) && s.documents == old(s.documents)
              && s.analysisResults == old(s.analysisResults) && s.tasks == old(s.tasks)
  {
    var messageData := ParseChatMessage(documentId, body);
    if messageData.None? {
      return BadRequest(InvalidMessageData);
    }
    var message := s.CreateChatMessage(messageData.value, now);
    resp := Created(message);
  }

  /** `[...messages].reverse().find(m => m.role === "user")`: the last message whose role is "user". */
  function LastUserMessage(messages: seq<ChatMessage>): (r: Option<ChatMessage>)
    ensures r.None? <==> forall i :: 0 <= i < |messages| ==> messages[i].role != "user"
    ensures r.Some? ==> exists i :: 0 <= i < |messages| && messages[i] == r.value
                          && r.value.role == "user" && forall k :: i < k < |messages| ==> messages[k].role != "user"
    decreases |messages|
  {
    if messages == [] then None
    else if messages[|messages| - 1].role == "user" then Some(messages[|messages| - 1])
    else LastUserMessage(messages[..|messages| - 1])
  }

  /** Appending an assistant message leaves the message to answer as it was. */
  lemma LastUserMessageSkipsAssistant(messages: seq<ChatMessage>, reply: ChatMessage)
    requires reply.role == "assistant"
    ensures LastUserMessage(messages + [reply]) == LastUserMessage(messages)
  {
    assert (messages + [reply])[..|messages|] == messages;
  }

  const NothingToRespondTo: string := "No message to respond to or document not found"

  /**
   * `GET /api/documents/:id/chat/respond`: with no user message in the
   * document's history, or no such document, 400 and nothing is stored;
   * otherwise exactly one assistant message answering the last user message
   * is appended to the history and returned.
   */
  method Respond(s: MemStorage, documentId: int, now: Timestamp) returns (resp: Response<ChatMessage>)
    requires s.Valid() && s.clock <= now
    modifies s
    ensures s.Valid()
    ensures (LastUserMessage(old(s.GetDocumentChatMessages(documentId))).None? || documentId !in old(s.documents)) ==>
              resp == BadRequest(NothingToRespondTo) && unchanged(s)
    ensures (LastUserMessage(old(s.GetDocumentChatMessages(documentId))).Some? && documentId in old(s.documents)) ==>
              && resp.Ok?
              && ConventionalRole(resp.body.role)
              && resp.body == NewChatMessage(
                   InsertChatMessage(Some(documentId), "assistant",
                     GenerateAIResponse(LastUserMessage(old(s.GetDocumentChatMessages(documentId))).value.content,
                                        old(s.documents[documentId]), old(s.GetDocumentAnalysisResult(documentId)))),
                   old(s.currentIds.chatMessage), now)
              && s.chatMessages == old(s.chatMessages)[resp.body.id := resp.body]
              && s.GetDocumentChatMessages(documentId) == old(s.GetDocumentChatMessages(documentId)) + [resp.body]
              && s.users == old(s.users) && s.documents == old(s.documents)
              && s.analysisResults == old(s.analysisResults) && s.tasks == old(s.tasks)
  {
    var document := s.GetDocument(documentId);
    var analysis := s.GetDocumentAnalysisResult(documentId);
    var messages := s.GetDocumentChatMessages(documentId);
    var lastUserMessage := LastUserMessage(messages);
    if lastUserMessage.None? || document.None? {
      return BadRequest(NothingToRespondTo);
    }
    var responseContent := GenerateAIResponse(lastUserMessage.value.content, document.value, analysis);
    var message := s.CreateChatMessage(InsertChatMessage(Some(documentId), "assistant", responseContent), now);
    resp := Ok(message);
  }

  // -------------------------------------------------------- the AI reply

  predicate AsksAboutImpact(lower: string) {
    Contains(lower, "impact") || Contains(lower, "analysis")
  }

  predicate AsksAboutConflicts(lower: string) {
    Contains(lower, "conflict") || Contains(lower, "problem")
  }

  predicate AsksForRecommendations(lower: string) {
    Contains(lower, "recommend") || Contains(lower, "suggest") || Contains(lower, "solution")
  }

  predicate AsksForContacts(lower: string) {
    Contains(lower, "who") || Contains(lower, "contact") || Contains(lower, "team")
  }

  /** `analysis?.impactLevel || 'Medium'`. */
  function ReportedLevel(analysis: Option<AnalysisResult>): (level: string)
    ensures level != ""
    ensures analysis.Some? && analysis.value.impactLevel != "" ==> level == analysis.value.impactLevel
    ensures analysis.None? || analysis.value.impactLevel == "" ==> level == "Medium"
  {
    if analysis.Some? then OrElse(analysis.value.impactLevel, "Medium") else "Medium"
  }

  /** `analysis?.impactedAreas?.length || 0`. */
  function ReportedAreaCount(analysis: Option<AnalysisResult>): (count: nat)
    ensures analysis.None? ==> count == 0
    ensures analysis.Some? ==> count == |analysis.value.impactedAreas|
  {
    if analysis.Some? then |analysis.value.impactedAreas| else 0
  }

  const ImpactOpening: string := "I've analyzed the impact of \""
  const ImpactLevelIntro: string := "\" against the knowledge base. The impact level is "
  const ImpactCountIntro: string := " with "
  const ImpactClosing: string := " potential conflicts identified. Would you like to explore specific areas of impact?"

  function ImpactReply(title: string, level: string, count: nat): string {
    ImpactOpening + title + ImpactLevelIntro + level + ImpactCountIntro + NatToString(count) + ImpactClosing
  }

  /** The impact reply ends in "t?", which tells it apart from the fixed replies. */
  lemma ImpactReplyEnding(title: string, level: string, count: nat)
    ensures var r := ImpactReply(title, level, count);
            |r| >= 2 && r[|r| - 2] == 't' && r[|r| - 1] == '?'
  {
    var r := ImpactReply(title, level, count);
    var prefix := ImpactOpening + title + ImpactLevelIntro + level + ImpactCountIntro + NatToString(count);
    assert r == prefix + ImpactClosing;
    assert r[|r| - 2] == ImpactClosing[|ImpactClosing| - 2];
  }

  const ConflictReply: string :=
    "The main conflicts identified are related to potential overlaps with existing systems. The most critical one involves integration points that could require significant refactoring. Would you like me to suggest some solutions to these conflicts?"
  const RecommendationReply: string :=
    "Based on my analysis, I recommend scheduling coordination meetings with the affected teams early in the development cycle. Additionally, consider creating interface contracts to clearly define integration points and ensure backward compatibility."
  const ContactReply: string :=
    "For the identified impact areas, you should contact: Jane Smith (Engineering Lead) for payment processing concerns, Michael Johnson (Product Owner) for user profile changes, and Sarah Lee (Analytics Lead) for analytics requirements."
  const DefaultReply: string :=
    "I'm analyzing your document to provide insights on its impact. Feel free to ask specific questions about potential conflicts, affected systems, or recommendations for implementation."

  /**
   * `generateAIResponse`: the first keyword group the lower-cased message
   * mentions, in the order impact, conflicts, recommendations, contacts,
   * picks the reply; a message mentioning none gets the default reply.
   */
  function GenerateAIResponse(userMessage: string, document: Document, analysis: Option<AnalysisResult>): (r: string)
    ensures var lower := ToLower(userMessage);
            && (r == ImpactReply(document.title, ReportedLevel(analysis), ReportedAreaCount(analysis)) <==> AsksAboutImpact(lower))
            && (r == ConflictReply <==> !AsksAboutImpact(lower) && AsksAboutConflicts(lower))
            && (r == RecommendationReply <==> !AsksAboutImpact(lower) && !AsksAboutConflicts(lower) && AsksForRecommendations(lower))
            && (r == ContactReply <==> !AsksAboutImpact(lower) && !AsksAboutConflicts(lower) && !AsksForRecommendations(lower)
                                       && AsksForContacts(lower))
            && (r == DefaultReply <==> !AsksAboutImpact(lower) && !AsksAboutConflicts(lower) && !AsksForRecommendations(lower)
                                       && !AsksForContacts(lower))
  {
    var lower := ToLower(userMessage);
    ImpactReplyEnding(document.title, ReportedLevel(analysis), ReportedAreaCount(analysis));
    RepliesDistinct(ImpactReply(document.title, ReportedLevel(analysis), ReportedAreaCount(analysis)));
    if AsksAboutImpact(lower) then ImpactReply(document.title, ReportedLevel(analysis), ReportedAreaCount(analysis))
    else if AsksAboutConflicts(lower) then ConflictReply
    else if AsksForRecommendations(lower) then RecommendationReply
    else if AsksForContacts(lower) then ContactReply
    else DefaultReply
  }

  /** The five replies are pairwise different, whatever the impact reply embeds. */
  lemma RepliesDistinct(impact: string)
    requires |impact| >= 2 && impact[|impact| - 2] == 't' && impact[|impact| - 1] == '?'
    ensures impact != ConflictReply && impact != RecommendationReply && impact != ContactReply && impact != DefaultReply
    ensures ConflictReply != RecommendationReply && ConflictReply != ContactReply && ConflictReply != DefaultReply
    ensures RecommendationReply != ContactReply && RecommendationReply != DefaultReply
    ensures ContactReply != DefaultReply
  {
    assert ConflictReply[|ConflictReply| - 2] == 's';
    assert RecommendationReply[|RecommendationReply| - 1] == '.';
    assert ContactReply[|ContactReply| - 1] == '.';
    assert DefaultReply[|DefaultReply| - 1] == '.';
  }

  /** The reply does not depend on the message's letter case. */
  lemma GenerateAIResponseIgnoresCase(userMessage: string, document: Document, analysis: Option<AnalysisResult>)
    ensures GenerateAIResponse(ToLower(userMessage), document, analysis) == GenerateAIResponse(userMessage, document, analysis)
  {
    ToLowerIdempotent(userMessage);
  }

  /** The impact reply names the document's title, the reported level and the number of areas. */
  lemma ImpactReplyReports(userMessage: string, document: Document, analysis: Option<AnalysisResult>)
    requires AsksAboutImpact(ToLower(userMessage))
    ensures var r := GenerateAIResponse(userMessage, document, analysis);
            && Contains(r, document.title)
            && Contains(r, ReportedLevel(analysis))
            && Contains(r, NatToString(ReportedAreaCount(analysis)))
  {
    ImpactReplyMentions(document.title, ReportedLevel(analysis), ReportedAreaCount(analysis));
  }

  lemma ImpactReplyMentions(title: string, level: string, n: nat)
    ensures var r := ImpactReply(title, level, n);
            Contains(r, title) && Contains(r, level) && Contains(r, NatToString(n))
  {
    ContainsEachHole(ImpactOpening, title, ImpactLevelIntro, level, ImpactCountIntro, NatToString(n), ImpactClosing);
  }

  /** A template with three holes contains what fills each of them. */
  lemma ContainsEachHole(p0: string, x: string, p1: string, y: string, p2: string, z: string, p3: string)
    ensures var r := p0 + x + p1 + y + p2 + z + p3;
            Contains(r, x) && Contains(r, y) && Contains(r, z)
  {
    var r := p0 + x + p1 + y + p2 + z + p3;
    assert r == p0 + x + (p1 + y + p2 + z + p3);
    ContainsInfix(p0, x, p1 + y + p2 + z + p3);
    assert r == (p0 + x + p1) + y + (p2 + z + p3);
    ContainsInfix(p0 + x + p1, y, p2 + z + p3);
    ContainsInfix(p0 + x + p1 + y + p2, z, p3);
  }
}
