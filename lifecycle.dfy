/**
 * How the client meets the server. `GET /api/documents/:id/analysis` always
 * answers with an analysis, the placeholder included, and the hook treats
 * any analysis as finished, so polling stops after the first answer. The
 * task dialog always posts a due date string, which `POST /api/tasks`
 * rejects.
 */
module Lifecycle {
  import opened Wrappers
  import opened Schema
  import opened Storage
  import Routes
  import opened AnalysisState
  import TaskDialog

  /** Whatever the flag was, and whether or not the document has loaded, an analysis in hand ends analyzing. */
  lemma AnyAnalysisEndsAnalyzing(analyzing: bool, documentLoaded: bool)
    ensures !AnalyzingAfter(analyzing, documentLoaded, true)
  {
  }

  /**
   * One round of the analysis query: the server answers, the hook's effect
   * sees an analysis, and the poll interval is off, even when the server
   * only had the placeholder to give.
   */
  method PollAnalysis(s: MemStorage, hook: AnalysisStateHook, documentId: int, documentLoaded: bool, now: Timestamp)
    returns (resp: Routes.Response<AnalysisResult>)
    requires s.Valid()
    modifies hook
    ensures resp.Ok?
    ensures s.GetDocumentAnalysisResult(documentId).None? ==> resp.body == Routes.PlaceholderAnalysis(documentId, now)
    ensures !hook.isAnalyzing && hook.RefetchInterval().None?
  {
    resp := Routes.GetAnalysis(s, documentId, now);
    hook.Effect(documentLoaded, resp.Ok?);
  }

  /** The body `POST /api/tasks` reads from the JSON the dialog sends. */
  function PostedTaskBody(p: TaskDialog.TaskPayload): Routes.TaskBody {
    Routes.TaskBody(Some(p.documentId), Some(p.title), Some(p.description), Some(p.assignee), Some(p.dueDate), None)
  }

  /** Every task the dialog submits, valid form or not, is answered 400 and stores nothing. */
  method SubmitTask(s: MemStorage, values: TaskDialog.TaskForm, documentId: int, driveTaskId: string, now: Timestamp)
    returns (resp: Routes.Response<Task>)
    requires s.Valid() && s.clock <= now
    modifies s
    ensures resp == Routes.BadRequest(Routes.InvalidTaskData) && unchanged(s)
  {
    var body := PostedTaskBody(TaskDialog.SubmitPayload(values, documentId));
    resp := Routes.CreateTask(s, body, driveTaskId, now);
  }

  /** No payload the dialog can build parses as a task. */
  lemma DialogTasksNeverParse(values: TaskDialog.TaskForm, documentId: int)
    ensures Routes.ParseTask(PostedTaskBody(TaskDialog.SubmitPayload(values, documentId))).None?
  {
  }
}
