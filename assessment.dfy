/** The questionnaire page: the five-field record it edits, the
    completeness test, the submit gate, and the page state (`formData`,
    `loading`) as a class whose handlers update it. */
module Assessment {
  import opened Wrappers
  import opened Effects

  /** The questionnaire answers; every field is the string the widget
      reported, "" while unanswered. */
  datatype AssessmentData = AssessmentData(
    neckPain: string,
    backPain: string,
    shoulderStiffness: string,
    poorPosture: string,
    duration: string)

  datatype Field = NeckPain | BackPain | ShoulderStiffness | PoorPosture | Duration

  function Get(d: AssessmentData, f: Field): string
  {
    match f
    case NeckPain => d.neckPain
    case BackPain => d.backPain
    case ShoulderStiffness => d.shoulderStiffness
    case PoorPosture => d.poorPosture
    case Duration => d.duration
  }

  /** `{ ...formData, field: value }`: replaces exactly one field. */
  function WithField(d: AssessmentData, f: Field, value: string): (r: AssessmentData)
    ensures Get(r, f) == value
    ensures forall g :: g != f ==> Get(r, g) == Get(d, g)
  {
    match f
    case NeckPain => d.(neckPain := value)
    case BackPain => d.(backPain := value)
    case ShoulderStiffness => d.(shoulderStiffness := value)
    case PoorPosture => d.(poorPosture := value)
    case Duration => d.(duration := value)
  }

  /** `Object.values(formData)`, in declaration order. */
  function Values(d: AssessmentData): seq<string>
  {
    [d.neckPain, d.backPain, d.shoulderStiffness, d.poorPosture, d.duration]
  }

  /** The record the page starts with. */
  const Empty := AssessmentData("", "", "", "", "")

  /** `Object.values(formData).every(value => value !== "")`. */
  predicate IsFormValid(d: AssessmentData)
  {
    forall i :: 0 <= i < |Values(d)| ==> Values(d)[i] != ""
  }

  lemma IsFormValidIff(d: AssessmentData)
    ensures IsFormValid(d) <==> forall f :: Get(d, f) != ""
  {
    var vs := Values(d);
    if IsFormValid(d) {
      assert vs[0] != "" && vs[1] != "" && vs[2] != "" && vs[3] != "" && vs[4] != "";
    }
    if forall f :: Get(d, f) != "" {
      assert Get(d, NeckPain) != "" && Get(d, BackPain) != "" && Get(d, ShoulderStiffness) != "";
      assert Get(d, PoorPosture) != "" && Get(d, Duration) != "";
    }
  }

  lemma EmptyIsInvalid()
    ensures forall f :: Get(Empty, f) == ""
    ensures !IsFormValid(Empty)
  {
    assert Values(Empty)[0] == "";
  }

  /** The values the widgets offer: radio buttons for the four symptoms,
      a select for the duration. */
  const YesNo: seq<string> := ["yes", "no"]
  const DurationChoices: seq<string> := ["1-7days", "1-4weeks", ">1month"]

  function Options(f: Field): seq<string>
  {
    if f == Duration then DurationChoices else YesNo
  }

  lemma OptionsAreSingleLineWords(f: Field, v: string)
    requires v in Options(f)
    ensures v != "" && '\n' !in v
  {
  }

  /** One `onValueChange` event from a widget. */
  datatype Pick = Pick(field: Field, value: string)

  /** A sequence of widget events applied in order to the form. */
  function ApplyPicks(d: AssessmentData, picks: seq<Pick>): AssessmentData
    decreases |picks|
  {
    if picks == [] then d else ApplyPicks(WithField(d, picks[0].field, picks[0].value), picks[1..])
  }

  ghost predicate Offered(picks: seq<Pick>)
  {
    forall i :: 0 <= i < |picks| ==> picks[i].value in Options(picks[i].field)
  }

  ghost predicate Picked(picks: seq<Pick>, f: Field)
  {
    exists i :: 0 <= i < |picks| && picks[i].field == f
  }

  /** A field no event touches keeps its value. */
  lemma {:induction false} UnpickedUnchanged(d: AssessmentData, picks: seq<Pick>, f: Field)
    requires !Picked(picks, f)
    ensures Get(ApplyPicks(d, picks), f) == Get(d, f)
    decreases |picks|
  {
    if picks != [] {
      assert picks[0].field != f;
      assert !Picked(picks[1..], f) by {
        forall i | 0 <= i < |picks[1..]| ensures picks[1..][i].field != f {
          assert picks[1..][i] == picks[i + 1];
        }
      }
      UnpickedUnchanged(WithField(d, picks[0].field, picks[0].value), picks[1..], f);
    }
  }

  /** A field some widget event touched holds an offered value. */
  lemma {:induction false} PickedHoldsOption(d: AssessmentData, picks: seq<Pick>, f: Field)
    requires Offered(picks)
    requires Picked(picks, f)
    ensures Get(ApplyPicks(d, picks), f) in Options(f)
    decreases |picks|
  {
    var d' := WithField(d, picks[0].field, picks[0].value);
    assert Offered(picks[1..]) by {
      forall i | 0 <= i < |picks[1..]| ensures picks[1..][i].value in Options(picks[1..][i].field) {
        assert picks[1..][i] == picks[i + 1];
      }
    }
    if Picked(picks[1..], f) {
      PickedHoldsOption(d', picks[1..], f);
    } else {
      assert forall i :: 1 <= i < |picks| ==> picks[i] == picks[1..][i - 1];
      assert picks[0].field == f;
      UnpickedUnchanged(d', picks[1..], f);
    }
  }

  /** Answering every question through the widgets, in any order and with
      any corrections, yields a complete form of offered values. */
  lemma AnsweredFormIsValid(picks: seq<Pick>)
    requires Offered(picks)
    requires forall f :: Picked(picks, f)
    ensures IsFormValid(ApplyPicks(Empty, picks))
    ensures forall f :: Get(ApplyPicks(Empty, picks), f) in Options(f)
  {
    var d := ApplyPicks(Empty, picks);
    forall f ensures Get(d, f) in Options(f) {
      PickedHoldsOption(Empty, picks, f);
    }
    forall f ensures Get(d, f) != "" {
      OptionsAreSingleLineWords(f, Get(d, f));
    }
    IsFormValidIff(d);
  }

  /** `disabled={loading || !isFormValid()}`. */
  predicate SubmitDisabled(loading: bool, d: AssessmentData)
  {
    loading || !IsFormValid(d)
  }

  /** What `handleSubmit` does to `loading` and which effects it emits;
      `navigateThrows` stands for the router call failing. */
  datatype SubmitStep = SubmitStep(loading: bool, effects: seq<UiEffect<AssessmentData>>)

  function Submit(d: AssessmentData, loading: bool, navigateThrows: bool): SubmitStep
  {
    if !IsFormValid(d) then SubmitStep(loading, [Toast(IncompleteAssessment)])
    else if navigateThrows then SubmitStep(false, [Toast(SubmitError)])
    else SubmitStep(true, [Navigate("/results", Some(d))])
  }

  lemma SubmitIncomplete(d: AssessmentData, loading: bool, navigateThrows: bool)
    requires exists f :: Get(d, f) == ""
    ensures Submit(d, loading, navigateThrows) == SubmitStep(loading, [Toast(IncompleteAssessment)])
  {
    IsFormValidIff(d);
  }

  lemma SubmitComplete(d: AssessmentData, loading: bool)
    requires forall f :: Get(d, f) != ""
    ensures Submit(d, loading, false) == SubmitStep(true, [Navigate("/results", Some(d))])
  {
    IsFormValidIff(d);
  }

  /** Pressing the button while it is enabled always navigates with the
      form as it stands. */
  lemma EnabledSubmitNavigates(d: AssessmentData, loading: bool)
    requires !SubmitDisabled(loading, d)
    ensures Submit(d, loading, false).effects == [Navigate("/results", Some(d))]
    ensures Submit(d, loading, false).loading
  {
  }

  /** Navigation is only ever sent a complete form. */
  lemma SubmitNavigatesOnlyComplete(d: AssessmentData, loading: bool, navigateThrows: bool, e: UiEffect<AssessmentData>)
    requires e in Submit(d, loading, navigateThrows).effects && e.Navigate?
    ensures e == Navigate("/results", Some(d))
    ensures forall f :: Get(d, f) != ""
  {
    IsFormValidIff(d);
  }

  /** The page state of `Assessment`. */
  class AssessmentPage {
    var formData: AssessmentData
    var loading: bool

    constructor ()
      ensures formData == Empty && !loading
    {
      formData := Empty;
      loading := false;
    }

    /** The `onValueChange` handler of the widget for `f`. */
    method OnValueChange(f: Field, value: string)
      modifies this
      ensures formData == WithField(old(formData), f, value)
      ensures loading == old(loading)
    {
      formData := WithField(formData, f, value);
    }

    /** `handleSubmit`. */
    method HandleSubmit(navigateThrows: bool) returns (effects: seq<UiEffect<AssessmentData>>)
      modifies this
      ensures formData == old(formData)
      ensures SubmitStep(loading, effects) == Submit(old(formData), old(loading), navigateThrows)
    {
      if !IsFormValid(formData) {
        effects := [Toast(IncompleteAssessment)];
        return;
      }
      loading := true;
      if navigateThrows {
        effects := [Toast(SubmitError)];
        loading := false;
      } else {
        effects := [Navigate("/results", Some(formData))];
      }
    }
  }
}
