/**
 * The record shapes shared by server and client (`shared/schema.ts`): the five
 * tables as stored, the insert shapes that leave out what the server assigns,
 * and the validity rules of the analysis payload.
 */
module Schema {
  import opened Wrappers

  /** A moment of the abstract, monotone clock that stands in for `new Date()`. */
  type Timestamp = nat

  // ---------------------------------------------------------------- users

  datatype User = User(id: int, username: string, password: string, email: string, name: string)

  /** The insert shape of a user leaves out the serial id. */
  datatype InsertUser = InsertUser(username: string, password: string, email: string, name: string)

  function UserInsertShape(u: User): InsertUser {
    InsertUser(u.username, u.password, u.email, u.name)
  }

  /** The user `createUser` stores: the insert shape plus the issued id. */
  function NewUser(ins: InsertUser, id: int): (u: User)
    ensures u.id == id && UserInsertShape(u) == ins
  {
    User(id, ins.username, ins.password, ins.email, ins.name)
  }

  // ------------------------------------------------------------ documents

  datatype Document = Document(
    id: int, userId: int, title: string, description: Option<string>,
    fileType: string, filePath: string, contentText: Option<string>, uploadedAt: Timestamp)

  /** The insert shape of a document leaves out `id` and `uploadedAt`. */
  datatype InsertDocument = InsertDocument(
    userId: int, title: string, description: Option<string>,
    fileType: string, filePath: string, contentText: Option<string>)

  function DocumentInsertShape(d: Document): InsertDocument {
    InsertDocument(d.userId, d.title, d.description, d.fileType, d.filePath, d.contentText)
  }

  /**
   * The document `createDocument` stores: the insert shape with the issued id
   * and the upload time; a missing description or content text is stored as
   * null (both are `None` here).
   */
  function NewDocument(ins: InsertDocument, id: int, now: Timestamp): (d: Document)
    ensures d.id == id && d.uploadedAt == now
    ensures DocumentInsertShape(d) == ins
  {
    Document(id, ins.userId, ins.title, ins.description, ins.fileType, ins.filePath, ins.contentText, now)
  }

  // ------------------------------------------------------- impact payload

  datatype Contact = Contact(name: string, title: string, email: string)

  datatype ImpactArea = ImpactArea(
    name: string, impactLevel: string, description: string,
    conflict: Option<string>, recommendation: Option<string>, contact: Contact)

  /** `docType` is the JSON field `type`. Every field is a string and `tags` may be empty. */
  datatype RelatedDocument = RelatedDocument(title: string, docType: string, lastUpdated: string, tags: seq<string>)

  /** `z.enum(["High", "Medium", "Low"])`. */
  predicate ValidImpactLevel(level: string) {
    level == "High" || level == "Medium" || level == "Low"
  }

  /**
   * `impactAreaSchema`: the level is one of the three, conflict and
   * recommendation are optional, and the contact's email passes `isEmail`
   * (zod's email check, left abstract).
   */
  predicate ValidImpactArea(a: ImpactArea, isEmail: string -> bool) {
    ValidImpactLevel(a.impactLevel) && isEmail(a.contact.email)
  }

  /** Validity of an impact area does not depend on conflict or recommendation. */
  lemma ValidityIgnoresConflictAndRecommendation(a: ImpactArea, c: Option<string>, r: Option<string>, isEmail: string -> bool)
    ensures ValidImpactArea(a.(conflict := c, recommendation := r), isEmail) <==> ValidImpactArea(a, isEmail)
  {
  }

  // ------------------------------------------------------------- analyses

  datatype AnalysisResult = AnalysisResult(
    id: int, documentId: int, impactLevel: string,
    impactedAreas: seq<ImpactArea>, relatedDocuments: seq<RelatedDocument>, analysisDate: Timestamp)

  /** The insert shape of an analysis result leaves out `id` and `analysisDate`. */
  datatype InsertAnalysisResult = InsertAnalysisResult(
    documentId: int, impactLevel: string, impactedAreas: seq<ImpactArea>, relatedDocuments: seq<RelatedDocument>)

  function AnalysisInsertShape(a: AnalysisResult): InsertAnalysisResult {
    InsertAnalysisResult(a.documentId, a.impactLevel, a.impactedAreas, a.relatedDocuments)
  }

  function NewAnalysisResult(ins: InsertAnalysisResult, id: int, now: Timestamp): (a: AnalysisResult)
    ensures a.id == id && a.analysisDate == now
    ensures AnalysisInsertShape(a) == ins
  {
    AnalysisResult(id, ins.documentId, ins.impactLevel, ins.impactedAreas, ins.relatedDocuments, now)
  }

  // ---------------------------------------------------------------- tasks

  /** The column default of `tasks.status`. */
  const DefaultTaskStatus: string := "open"

  datatype Task = Task(
    id: int, documentId: int, title: string, description: Option<string>,
    assignee: Option<string>, dueDate: Option<Timestamp>, status: string,
    googleDriveTaskId: Option<string>, createdAt: Timestamp)

  /** The insert shape of a task leaves out `id`, `status` and `createdAt`. */
  datatype InsertTask = InsertTask(
    documentId: int, title: string, description: Option<string>,
    assignee: Option<string>, dueDate: Option<Timestamp>, googleDriveTaskId: Option<string>)

  function TaskInsertShape(t: Task): InsertTask {
    InsertTask(t.documentId, t.title, t.description, t.assignee, t.dueDate, t.googleDriveTaskId)
  }

  /** The task `createTask` stores: whatever the input, its status is "open". */
  function NewTask(ins: InsertTask, id: int, now: Timestamp): (t: Task)
    ensures t.id == id && t.createdAt == now && t.status == DefaultTaskStatus
    ensures TaskInsertShape(t) == ins
  {
    Task(id, ins.documentId, ins.title, ins.description, ins.assignee, ins.dueDate,
         DefaultTaskStatus, ins.googleDriveTaskId, now)
  }

  /**
   * `Partial<InsertTask>`: each field is either absent (`None`) or given; a
   * given nullable field may be given as null (`Some(None)`).
   */
  datatype TaskUpdate = TaskUpdate(
    documentId: Option<int>, title: Option<string>, description: Option<Option<string>>,
    assignee: Option<Option<string>>, dueDate: Option<Option<Timestamp>>,
    googleDriveTaskId: Option<Option<string>>)

  const EmptyTaskUpdate := TaskUpdate(None, None, None, None, None, None)

  /** `{ ...existingTask, ...taskUpdate }`. */
  function ApplyTaskUpdate(t: Task, u: TaskUpdate): (r: Task)
    ensures r.id == t.id && r.status == t.status && r.createdAt == t.createdAt
    ensures r.documentId == u.documentId.GetOr(t.documentId)
    ensures r.title == u.title.GetOr(t.title)
    ensures r.description == u.description.GetOr(t.description)
    ensures r.assignee == u.assignee.GetOr(t.assignee)
    ensures r.dueDate == u.dueDate.GetOr(t.dueDate)
    ensures r.googleDriveTaskId == u.googleDriveTaskId.GetOr(t.googleDriveTaskId)
  {
    t.(documentId := u.documentId.GetOr(t.documentId),
       title := u.title.GetOr(t.title),
       description := u.description.GetOr(t.description),
       assignee := u.assignee.GetOr(t.assignee),
       dueDate := u.dueDate.GetOr(t.dueDate),
       googleDriveTaskId := u.googleDriveTaskId.GetOr(t.googleDriveTaskId))
  }

  /** An update that gives no field changes nothing. */
  lemma EmptyUpdateIsIdentity(t: Task)
    ensures ApplyTaskUpdate(t, EmptyTaskUpdate) == t
  {
  }

  /** Applying the same update twice is applying it once. */
  lemma ApplyTaskUpdateIdempotent(t: Task, u: TaskUpdate)
    ensures ApplyTaskUpdate(ApplyTaskUpdate(t, u), u) == ApplyTaskUpdate(t, u)
  {
  }

  // -------------------------------------------------------- chat messages

  datatype ChatMessage = ChatMessage(id: int, documentId: Option<int>, role: string, content: string, timestamp: Timestamp)

  /** The insert shape of a chat message leaves out `id` and `timestamp`; `documentId` is nullable. */
  datatype InsertChatMessage = InsertChatMessage(documentId: Option<int>, role: string, content: string)

  function ChatInsertShape(m: ChatMessage): InsertChatMessage {
    InsertChatMessage(m.documentId, m.role, m.content)
  }

  /** The message `createChatMessage` stores: role and content as given, an absent document id as null. */
  function NewChatMessage(ins: InsertChatMessage, id: int, now: Timestamp): (m: ChatMessage)
    ensures m.id == id && m.timestamp == now
    ensures ChatInsertShape(m) == ins
  {
    ChatMessage(id, ins.documentId, ins.role, ins.content, now)
  }

  /** The two roles the schema's comment names; the column itself accepts any text. */
  predicate ConventionalRole(role: string) {
    role == "user" || role == "assistant"
  }
}
