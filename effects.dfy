/** The observable effects of the two pages, as abstract tags: which
    toast is shown, where the router is sent (and with what navigation
    state), and which edge function is invoked with which assessment. */
module Effects {
  import opened Wrappers

  datatype ToastKind =
    | IncompleteAssessment   // Assessment.tsx, invalid form on submit
    | SubmitError            // Assessment.tsx, navigation threw
    | RateLimitExceeded      // Results.tsx, error mentioning 429
    | ServiceUnavailable     // Results.tsx, error mentioning 402
    | AnalysisError          // Results.tsx, any other failure

  /** The title each toast carries. */
  function Title(k: ToastKind): string
  {
    match k
    case IncompleteAssessment => "Incomplete Assessment"
    case SubmitError => "Error"
    case RateLimitExceeded => "Rate Limit Exceeded"
    case ServiceUnavailable => "Service Unavailable"
    case AnalysisError => "Analysis Error"
  }

  /** Every toast kind has its own title, so the title tells the user which
      case occurred. */
  lemma TitlesDistinct(k: ToastKind, l: ToastKind)
    ensures Title(k) == Title(l) <==> k == l
  {
  }

  datatype UiEffect<S> =
    | Toast(kind: ToastKind)
    | Navigate(path: string, state: Option<S>)
    | InvokeFunction(name: string, assessment: S)
}
