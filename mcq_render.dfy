/** What the view shows, as predicates over its state: the spinner while
    processing, the results block once a non-empty result has settled. */
module McqRender {
  import opened McqTypes
  import opened McqMachine

  /** The spinner's fallback text when no progress message is set. */
  const DefaultSpinnerText := "Analyzing MCQ and generating answers..."

  /** The spinner shows exactly while processing, and never beside the
      results block. */
  predicate SpinnerVisible(s: ViewState): (b: bool)
    ensures b <==> s.isProcessing
    ensures b ==> !ResultsVisible(s)
  {
    s.isProcessing
  }

  /** The results block needs a settled, non-empty result. */
  predicate ResultsVisible(s: ViewState): (b: bool)
    ensures b ==> !s.isProcessing && s.mcqData.Some?
    ensures s.mcqData == Some(MCQResponse([])) ==> !b
  {
    !s.isProcessing && s.mcqData.Some? && |s.mcqData.value.questions| > 0
  }

  /** The text under the spinner: the progress message, or the fallback when
      the message is empty, so it is never blank. */
  function SpinnerText(s: ViewState): (t: string)
    ensures t != ""
    ensures s.processingMessage != "" ==> t == s.processingMessage
    ensures s.processingMessage == "" ==> t == DefaultSpinnerText
  {
    if s.processingMessage == "" then DefaultSpinnerText else s.processingMessage
  }

  /** The spinner and the results block are never shown together, and a
      settled result without questions shows neither of them. */
  lemma VisibilityExclusive(s: ViewState)
    ensures !(SpinnerVisible(s) && ResultsVisible(s))
    ensures !s.isProcessing && s.mcqData.Some? && s.mcqData.value.questions == [] ==>
      !SpinnerVisible(s) && !ResultsVisible(s)
  {
  }
}
