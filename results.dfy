/** The results page: classification of the edge-function invocation,
    the `loading`/`results` state it drives, and what the page renders
    from a stored result. Nothing here checks the shape of the result:
    the severity is whatever string the payload carried. */
module Results {
  import opened Wrappers
  import opened Text
  import opened Effects
  import opened Assessment

  datatype Exercise = Exercise(name: string, steps: seq<string>, duration: string, frequency: string)

  /** The payload as the page reads it (`AIResponse`); `severity` is declared
      as a union of three literals but never checked, so it stays a string. */
  datatype AIResponse = AIResponse(
    analysis: string,
    severity: string,
    issues: seq<string>,
    exercises: seq<Exercise>,
    tips: seq<string>)

  /** The `error` of `supabase.functions.invoke`; its `message` may be absent. */
  datatype FunctionsError = FunctionsError(message: Option<string>)

  /** How the awaited invocation ended: resolved with `{ data, error }`, or
      rejected (the `await` threw). */
  datatype InvokeOutcome =
    | Resolved(data: Option<AIResponse>, error: Option<FunctionsError>)
    | Rejected

  datatype Classification = Succeeded(data: Option<AIResponse>) | RateLimited | QuotaExhausted | Failed

  /** `error.message?.includes(code)`. */
  predicate MessageIncludes(e: FunctionsError, code: string)
  {
    e.message.Some? && Contains(e.message.value, code)
  }

  /** The branches of `analyzeAssessment`: "429" is tested first, then
      "402"; any other error is rethrown into the generic catch. */
  function Classify(o: InvokeOutcome): Classification
  {
    match o
    case Rejected => Failed
    case Resolved(data, None) => Succeeded(data)
    case Resolved(_, Some(e)) =>
      if MessageIncludes(e, "429") then RateLimited
      else if MessageIncludes(e, "402") then QuotaExhausted
      else Failed
  }

  /** The reference reading of the message test: the code occurs in the text. */
  ghost predicate Mentions(o: InvokeOutcome, code: string)
  {
    o.Resolved? && o.error.Some? && o.error.value.message.Some? && Occurs(o.error.value.message.value, code)
  }

  lemma MentionsIffIncludes(o: InvokeOutcome, code: string)
    requires o.Resolved? && o.error.Some?
    ensures Mentions(o, code) <==> MessageIncludes(o.error.value, code)
  {
    if o.error.value.message.Some? {
      ContainsIffOccurs(o.error.value.message.value, code);
    }
  }

  /** An error mentioning 429 is a rate limit, whatever else it mentions. */
  lemma ClassifyRateLimited(o: InvokeOutcome)
    ensures Classify(o) == RateLimited <==> Mentions(o, "429")
  {
    if o.Resolved? && o.error.Some? {
      MentionsIffIncludes(o, "429");
    }
  }

  lemma ClassifyQuotaExhausted(o: InvokeOutcome)
    ensures Classify(o) == QuotaExhausted <==> Mentions(o, "402") && !Mentions(o, "429")
  {
    if o.Resolved? && o.error.Some? {
      MentionsIffIncludes(o, "429");
      MentionsIffIncludes(o, "402");
    }
  }

  /** Everything that is neither a success nor one of the two recognised
      codes is the generic failure: a rejection, an error without a message,
      or a message naming neither code. */
  lemma ClassifyFailed(o: InvokeOutcome)
    ensures Classify(o) == Failed <==>
      o.Rejected? || (o.error.Some? && !Mentions(o, "429") && !Mentions(o, "402"))
  {
    if o.Resolved? && o.error.Some? {
      MentionsIffIncludes(o, "429");
      MentionsIffIncludes(o, "402");
    }
  }

  lemma ClassifySucceeded(o: InvokeOutcome)
    ensures Classify(o).Succeeded? <==> o.Resolved? && o.error.None?
    ensures Classify(o).Succeeded? ==> Classify(o).data == o.data
  {
  }

  /** The toast each failure shows. */
  function FailureToast(c: Classification): ToastKind
    requires !c.Succeeded?
  {
    match c
    case RateLimited => RateLimitExceeded
    case QuotaExhausted => ServiceUnavailable
    case Failed => AnalysisError
  }

  /** The page's state: `loading` and `results`. */
  datatype PageState = PageState(loading: bool, results: Option<AIResponse>)

  const Initial := PageState(true, None)

  datatype Step = Step(state: PageState, effects: seq<UiEffect<AssessmentData>>)

  const FunctionName := "analyze-posture"

  /** The mount effect: redirect when no assessment came with the
      navigation, otherwise invoke the edge function and react to the result;
      the `finally` clears `loading` on every path that invoked. */
  function Analyze(s: PageState, navigation: Option<AssessmentData>, o: InvokeOutcome): Step
  {
    match navigation
    case None => Step(s, [Navigate("/assessment", None)])
    case Some(a) =>
      var call := InvokeFunction(FunctionName, a);
      var c := Classify(o);
      if c.Succeeded? then Step(PageState(false, c.data), [call])
      else Step(PageState(false, s.results), [call, Toast(FailureToast(c)), Navigate("/assessment", None)])
  }

  lemma MissingAssessmentRedirects(s: PageState, o: InvokeOutcome)
    ensures Analyze(s, None, o) == Step(s, [Navigate("/assessment", None)])
    ensures forall e :: e in Analyze(s, None, o).effects ==> !e.InvokeFunction?
  {
  }

  /** With an assessment, the function is invoked exactly once, first, with
      that assessment unchanged, and `loading` ends false. */
  lemma InvocationCarriesAssessment(s: PageState, a: AssessmentData, o: InvokeOutcome)
    ensures Analyze(s, Some(a), o).effects[0] == InvokeFunction(FunctionName, a)
    ensures forall i :: 1 <= i < |Analyze(s, Some(a), o).effects| ==> !Analyze(s, Some(a), o).effects[i].InvokeFunction?
    ensures !Analyze(s, Some(a), o).state.loading
  {
  }

  lemma SuccessStoresData(s: PageState, a: AssessmentData, data: Option<AIResponse>)
    ensures Analyze(s, Some(a), Resolved(data, None)) == Step(PageState(false, data), [InvokeFunction(FunctionName, a)])
  {
  }

  /** Every failure shows its toast and sends the user back to the
      questionnaire, and leaves `results` as it was. */
  lemma FailureRedirects(s: PageState, a: AssessmentData, o: InvokeOutcome)
    requires !Classify(o).Succeeded?
    ensures Analyze(s, Some(a), o).state == PageState(false, s.results)
    ensures Analyze(s, Some(a), o).effects ==
      [InvokeFunction(FunctionName, a), Toast(FailureToast(Classify(o))), Navigate("/assessment", None)]
  {
  }

  /** From the initial state, a result is stored only by a resolved call
      without error. */
  lemma ResultsOnlyOnSuccess(navigation: Option<AssessmentData>, o: InvokeOutcome)
    requires Analyze(Initial, navigation, o).state.results.Some?
    ensures navigation.Some? && o.Resolved? && o.error.None?
    ensures Analyze(Initial, navigation, o).state.results == o.data
  {
  }

  /** The `Results` component's state, updated by its mount effect. */
  class ResultsPage {
    var loading: bool
    var results: Option<AIResponse>

    constructor ()
      ensures PageState(loading, results) == Initial
    {
      loading := true;
      results := None;
    }

    /** `useEffect` body with `analyzeAssessment`, given the navigation
        state and the outcome of the awaited invocation. */
    method OnMount(navigation: Option<AssessmentData>, outcome: InvokeOutcome)
      returns (effects: seq<UiEffect<AssessmentData>>)
      modifies this
      ensures Step(PageState(loading, results), effects) == Analyze(old(PageState(loading, results)), navigation, outcome)
    {
      if navigation.None? {
        effects := [Navigate("/assessment", None)];
        return;
      }
      effects := [InvokeFunction(FunctionName, navigation.value)];
      match outcome {
        case Rejected =>
          effects := effects + [Toast(AnalysisError), Navigate("/assessment", None)];
        case Resolved(data, None) =>
          results := data;
        case Resolved(_, Some(e)) =>
          if MessageIncludes(e, "429") {
            effects := effects + [Toast(RateLimitExceeded)];
          } else if MessageIncludes(e, "402") {
            effects := effects + [Toast(ServiceUnavailable)];
          } else {
            effects := effects + [Toast(AnalysisError)];
          }
          effects := effects + [Navigate("/assessment", None)];
      }
      loading := false;
    }
  }

  /** The badge text: three `severity === ... && label` children, of which
      at most one renders. */
  function BadgeLabel(severity: string): string
  {
    (if severity == "mild" then "Mild Concerns" else "")
    + (if severity == "moderate" then "Moderate Concerns" else "")
    + (if severity == "needs_attention" then "Needs Medical Attention" else "")
  }

  /** `severityColors[severity]`: a colour class only for the three keys;
      any other string (an inherited member name included) gives no colour class. */
  function BadgeColors(severity: string): Option<string>
  {
    if severity == "mild" then Some("bg-secondary text-secondary-foreground")
    else if severity == "moderate" then Some("bg-yellow-500 text-white")
    else if severity == "needs_attention" then Some("bg-destructive text-destructive-foreground")
    else None
  }

  const Severities: seq<string> := ["mild", "moderate", "needs_attention"]

  /** Each declared severity has its own non-empty label and a colour; any
      other string gets no label and no colour (it is not rejected). */
  lemma BadgeForSeverity(s: string, t: string)
    ensures BadgeLabel("mild") == "Mild Concerns"
    ensures BadgeLabel("moderate") == "Moderate Concerns"
    ensures BadgeLabel("needs_attention") == "Needs Medical Attention"
    ensures s in Severities <==> BadgeColors(s).Some?
    ensures s in Severities <==> BadgeLabel(s) != ""
    ensures s in Severities && t in Severities && s != t ==> BadgeLabel(s) != BadgeLabel(t)
  {
  }

  datatype Section =
    | SeverityBadge(colors: Option<string>, caption: string)
    | Summary(text: string)
    | IssueList(items: seq<string>)
    | MedicalWarning
    | ExerciseGrid(exercises: seq<Exercise>)
    | TipList(items: seq<string>)
    | RetakeButton

  /** The sections of the result page, top to bottom. */
  function Sections(r: AIResponse): seq<Section>
  {
    [SeverityBadge(BadgeColors(r.severity), BadgeLabel(r.severity)), Summary(r.analysis)]
    + (if |r.issues| > 0 then [IssueList(r.issues)] else [])
    + (if r.severity == "needs_attention" then [MedicalWarning] else [])
    + (if |r.exercises| > 0 then [ExerciseGrid(r.exercises)] else [])
    + (if |r.tips| > 0 then [TipList(r.tips)] else [])
    + [RetakeButton]
  }

  /** Each optional section appears exactly when its condition holds. */
  lemma SectionsShown(r: AIResponse)
    ensures IssueList(r.issues) in Sections(r) <==> |r.issues| > 0
    ensures MedicalWarning in Sections(r) <==> r.severity == "needs_attention"
    ensures ExerciseGrid(r.exercises) in Sections(r) <==> |r.exercises| > 0
    ensures TipList(r.tips) in Sections(r) <==> |r.tips| > 0
    ensures Sections(r)[0] == SeverityBadge(BadgeColors(r.severity), BadgeLabel(r.severity))
  {
  }

  datatype View = Spinner | Blank | Page(sections: seq<Section>)

  /** What the component returns for a state. */
  function Render(s: PageState): View
  {
    if s.loading then Spinner
    else match s.results
      case None => Blank
      case Some(r) => Page(Sections(r))
  }

  /** What the page shows once its mount effect has run from the initial
      state: the spinner stays up while it redirects for lack of an
      assessment, a failure renders nothing at all (no partial result), and
      the page with its sections appears exactly for a resolved call without
      error that carried data. */
  lemma RenderAfterMount(navigation: Option<AssessmentData>, o: InvokeOutcome)
    ensures navigation.None? ==> Render(Analyze(Initial, navigation, o).state) == Spinner
    ensures navigation.Some? && !Classify(o).Succeeded? ==> Render(Analyze(Initial, navigation, o).state) == Blank
    ensures Render(Analyze(Initial, navigation, o).state).Page? <==>
      navigation.Some? && o.Resolved? && o.error.None? && o.data.Some?
    ensures Render(Analyze(Initial, navigation, o).state).Page? ==>
      Render(Analyze(Initial, navigation, o).state).sections == Sections(o.data.value)
  {
  }

  /** The title of the toast a failed analysis shows, tied to what the error
      message mentions. */
  lemma FailureToastTitles(o: InvokeOutcome)
    requires !Classify(o).Succeeded?
    ensures Title(FailureToast(Classify(o))) == "Rate Limit Exceeded" <==> Mentions(o, "429")
    ensures Title(FailureToast(Classify(o))) == "Service Unavailable" <==> Mentions(o, "402") && !Mentions(o, "429")
    ensures Title(FailureToast(Classify(o))) == "Analysis Error" <==> !Mentions(o, "429") && !Mentions(o, "402")
  {
    ClassifyRateLimited(o);
    ClassifyQuotaExhausted(o);
    ClassifyFailed(o);
    ClassifySucceeded(o);
  }
}
