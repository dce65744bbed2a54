/**
 * The analysis job and the canned chat reply (server/bedrock.ts). The job
 * is a store transition run to completion; its delay and its logging have
 * no counterpart here.
 */
module Bedrock {
  import opened Wrappers
  import opened Text
  import opened Schema
  import opened Storage

  const JaneSmith: Contact := Contact("Jane Smith", "Engineering Lead", "jane.smith@company.com")
  const MichaelJohnson: Contact := Contact("Michael Johnson", "Product Owner", "michael.johnson@company.com")
  const SarahLee: Contact := Contact("Sarah Lee", "Analytics Lead", "sarah.lee@company.com")

  const MockImpactedAreas: seq<ImpactArea> := [
    ImpactArea(
      "Payment Processing Module", "High",
      "Changes to the checkout flow may conflict with existing payment processing logic",
      Some("The proposed changes to payment validation conflict with the existing fraud detection system described in \"Payment Processing Service BRD\""),
      None, JaneSmith),
    ImpactArea(
      "User Profile Service", "Medium",
      "The new saved payment methods feature requires user profile structure changes",
      None,
      Some("Coordinate with the Profile Team to ensure database schema changes align with their roadmap for Q2"),
      MichaelJohnson),
    ImpactArea(
      "Analytics Dashboard", "Low",
      "New checkout flow may require updates to analytics event tracking",
      None,
      Some("Analytics team should be informed about new events that need tracking in the dashboard"),
      SarahLee)
  ]

  const MockRelatedDocuments: seq<RelatedDocument> := [
    RelatedDocument("Payment Processing Service BRD", "BRD", "Jan 15, 2023", ["BRD", "Payment"]),
    RelatedDocument("User Profile Management PRD", "PRD", "Mar 3, 2023", ["PRD", "User"]),
    RelatedDocument("Analytics Events Tech Spec", "Tech Spec", "Nov 10, 2022", ["Tech Spec", "Analytics"])
  ]

  /**
   * Every mock area is valid whenever the three contact addresses pass the
   * email check, and carries exactly one of a conflict or a recommendation.
   */
  lemma MockImpactedAreasWellFormed(isEmail: string -> bool)
    requires isEmail(JaneSmith.email) && isEmail(MichaelJohnson.email) && isEmail(SarahLee.email)
    ensures forall i :: 0 <= i < |MockImpactedAreas| ==> ValidImpactArea(MockImpactedAreas[i], isEmail)
    ensures forall i :: 0 <= i < |MockImpactedAreas| ==>
              MockImpactedAreas[i].conflict.Some? != MockImpactedAreas[i].recommendation.Some?
  {
  }

  /** Each mock related document is tagged first with its own type. */
  lemma MockRelatedDocumentsTaggedByType()
    ensures forall i :: 0 <= i < |MockRelatedDocuments| ==>
              |MockRelatedDocuments[i].tags| == 2 && MockRelatedDocuments[i].tags[0] == MockRelatedDocuments[i].docType
  {
  }

  /** What the job stores for a document it found. */
  function MockAnalysis(documentId: int): (ins: InsertAnalysisResult)
    ensures ins.documentId == documentId && ValidImpactLevel(ins.impactLevel)
    ensures ins.impactLevel == "Medium"
    ensures ins.impactedAreas == MockImpactedAreas && ins.relatedDocuments == MockRelatedDocuments
  {
    InsertAnalysisResult(documentId, "Medium", MockImpactedAreas, MockRelatedDocuments)
  }

  /** How the job ends: it completes, or throws (after logging) with a message. */
  datatype JobOutcome = Completed | Failed(message: string)

  function DocumentNotFound(documentId: int): (message: string)
    ensures message == "Document not found: " + IntToString(documentId)
  {
    "Document not found: " + IntToString(documentId)
  }

  /** Different ids give different failure messages. */
  lemma DocumentNotFoundInjective(a: int, b: int)
    ensures DocumentNotFound(a) == DocumentNotFound(b) ==> a == b
  {
    if DocumentNotFound(a) == DocumentNotFound(b) {
      var p := "Document not found: ";
      assert IntToString(a) == DocumentNotFound(a)[|p|..];
      assert IntToString(b) == DocumentNotFound(b)[|p|..];
      IntToStringInjective(a, b);
    }
  }

  /**
   * `analyzeDocument`: an unknown id fails with "Document not found" and
   * leaves the store as it was; a known one gets exactly one new analysis
   * result, stored under the next analysis id, and nothing else changes.
   */
  method AnalyzeDocument(s: MemStorage, documentId: int, now: Timestamp) returns (outcome: JobOutcome)
    requires s.Valid() && s.clock <= now
    modifies s
    ensures s.Valid()
    ensures old(s.GetDocument(documentId)).None? ==> outcome == Failed(DocumentNotFound(documentId)) && unchanged(s)
    ensures old(s.GetDocument(documentId)).Some? ==>
              && outcome == Completed
              && s.clock == now
              && s.analysisResults == old(s.analysisResults)[old(s.currentIds.analysisResult) :=
                                        NewAnalysisResult(MockAnalysis(documentId), old(s.currentIds.analysisResult), now)]
              && s.currentIds == old(s.currentIds).(analysisResult := old(s.currentIds.analysisResult) + 1)
              && s.users == old(s.users) && s.documents == old(s.documents)
              && s.tasks == old(s.tasks) && s.chatMessages == old(s.chatMessages)
              && s.GetDocumentAnalysisResult(documentId).Some?
              && (old(s.GetDocumentAnalysisResult(documentId)).Some? ==>
                    s.GetDocumentAnalysisResult(documentId) == old(s.GetDocumentAnalysisResult(documentId)))
  {
    var document := s.GetDocument(documentId);
    if document.None? {
      return Failed(DocumentNotFound(documentId));
    }
    var _ := s.CreateAnalysisResult(MockAnalysis(documentId), now);
    outcome := Completed;
  }

  const CannedChatReply: string :=
    "I've analyzed your document and found potential impacts with existing systems. The main concerns are with the payment processing flow and user profile services. Would you like more details on a specific area?"

  /** `generateChatResponse`: the same non-empty reply whatever it is asked. */
  function GenerateChatResponse(message: string, documentId: int, history: seq<(string, string)>): (r: string)
    ensures |r| > 0
  {
    CannedChatReply
  }

  lemma GenerateChatResponseIgnoresInput(
    m1: string, d1: int, h1: seq<(string, string)>, m2: string, d2: int, h2: seq<(string, string)>)
    ensures GenerateChatResponse(m1, d1, h1) == GenerateChatResponse(m2, d2, h2)
  {
  }
}
