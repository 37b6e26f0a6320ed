/** The three pieces in sequence: the questionnaire hands its record to the
    results page through navigation, the page hands it to the edge
    function, and the edge function interpolates it into the prompt. */
module Pipeline {
  import opened Wrappers
  import opened Effects
  import opened Assessment
  import opened Results
  import opened AnalyzePosture

  /** A questionnaire answered through the widgets reaches the gateway
      unchanged: the submit navigates with it, the page invokes the function
      with it, the handler sends it in the user turn, and the user turn gives
      it back. */
  lemma AnsweredQuestionnaireReachesGateway(picks: seq<Pick>, o: InvokeOutcome, key: string, provider: ProviderOutcome)
    requires Offered(picks)
    requires forall f :: Picked(picks, f)
    requires key != ""
    ensures var d := ApplyPicks(Empty, picks);
      Submit(d, false, false).effects == [Navigate("/results", Some(d))]
      && Analyze(Results.Initial, Some(d), o).effects[0] == InvokeFunction(FunctionName, d)
      && Handle(Request("POST", WithAssessment(d)), Some(key), provider).effects[2] == Fetch(Outgoing(key, d))
      && ParseUserPrompt(UserPrompt(d)) == Some(d)
  {
    var d := ApplyPicks(Empty, picks);
    AnsweredFormIsValid(picks);
    forall f ensures '\n' !in Get(d, f) {
      OptionsAreSingleLineWords(f, Get(d, f));
    }
    UserPromptRoundTrip(d);
  }
}
