/**
 * The client's analysis-state hook (client/src/hooks/useAnalysisState.ts):
 * one `isAnalyzing` flag, set by an effect from what the document and
 * analysis queries currently hold, and the poll interval derived from it.
 */
module AnalysisState {
  import opened Wrappers

  /** The analysis query polls every 2000 ms while an analysis is pending. */
  const PollIntervalMs: nat := 2000

  /**
   * The flag the effect leaves: a loaded document without an analysis
   * starts analyzing, any analysis stops it, and otherwise it is kept.
   */
  function AnalyzingAfter(analyzing: bool, documentLoaded: bool, analysisLoaded: bool): (r: bool)
    ensures analysisLoaded ==> !r
    ensures documentLoaded && !analysisLoaded ==> r
    ensures !documentLoaded && !analysisLoaded ==> r == analyzing
  {
    if documentLoaded && !analysisLoaded then true
    else if analysisLoaded then false
    else analyzing
  }

  /** Running the effect again on the same inputs changes nothing more. */
  lemma AnalyzingAfterIdempotent(analyzing: bool, documentLoaded: bool, analysisLoaded: bool)
    ensures var once := AnalyzingAfter(analyzing, documentLoaded, analysisLoaded);
            AnalyzingAfter(once, documentLoaded, analysisLoaded) == once
  {
  }

  /** The flag is on after the effect exactly when it saw a document but no analysis, or was on and saw neither. */
  lemma AnalyzingAfterExactly(analyzing: bool, documentLoaded: bool, analysisLoaded: bool)
    ensures AnalyzingAfter(analyzing, documentLoaded, analysisLoaded)
            <==> !analysisLoaded && (documentLoaded || analyzing)
  {
  }

  /** `isLoading`: either query is still loading. */
  function IsLoading(documentLoading: bool, analysisLoading: bool): (r: bool)
    ensures r <==> documentLoading || analysisLoading
  {
    documentLoading || analysisLoading
  }

  class AnalysisStateHook {
    var isAnalyzing: bool

    /** `useState(false)`: a fresh hook is not analyzing. */
    constructor ()
      ensures !isAnalyzing
    {
      isAnalyzing := false;
    }

    /** `refetchInterval`: 2000 ms exactly while analyzing, otherwise no polling. */
    function RefetchInterval(): (r: Option<nat>)
      reads this
      ensures r.Some? <==> isAnalyzing
      ensures r.Some? ==> r.value == PollIntervalMs
    {
      if isAnalyzing then Some(PollIntervalMs) else None
    }

    /** The effect on `[document, analysisResult]`. */
    method Effect(documentLoaded: bool, analysisLoaded: bool)
      modifies this
      ensures isAnalyzing == AnalyzingAfter(old(isAnalyzing), documentLoaded, analysisLoaded)
    {
      if documentLoaded && !analysisLoaded {
        isAnalyzing := true;
      } else if analysisLoaded {
        isAnalyzing := false;
      }
    }
  }
}
