/** The multi-step rate-check form: one question per step over an ordered
    list of the eleven fields, a live normalised preview, and a submission
    that sends the normalised feature record to the scoring service. */
module CheckRateForm {
  import opened Wrappers
  import opened JsNumbers
  import opened Normalizer
  import opened FormSchema
  import opened Scoring

  /** The questions, in the order the form asks them. */
  const Steps: seq<Field> := [
    NoOfDependents, Education, SelfEmployed, IncomeAnnum, LoanAmount,
    LoanTerm, CibilScore, ResidentialAssets, CommercialAssets,
    LuxuryAssets, BankAssets
  ]

  const LastStep: int := |Steps| - 1

  /** The form asks every field of its schema, each exactly once. */
  lemma StepsAskEachFieldOnce()
    ensures LastStep == 10
    ensures forall f :: f in Steps
    ensures forall i, j :: 0 <= i < j < |Steps| ==> Steps[i] != Steps[j]
  {
    EveryFieldListed();
    assert Steps == Fields;
  }

  /** `items.filter((_, index) => index === step)`, the items being numbered
      from `first` on. */
  function ShownAt<T>(items: seq<T>, step: int, first: int): seq<T>
  {
    if items == [] then []
    else (if first == step then [items[0]] else []) + ShownAt(items[1..], step, first + 1)
  }

  /** The filter keeps exactly the item numbered `step`, when there is one. */
  lemma {:induction false} ShownAtIsOne<T>(items: seq<T>, step: int, first: int)
    ensures first <= step < first + |items| ==> ShownAt(items, step, first) == [items[step - first]]
    ensures !(first <= step < first + |items|) ==> ShownAt(items, step, first) == []
  {
    if items != [] {
      ShownAtIsOne(items[1..], step, first + 1);
    }
  }

  /** The record posted to the scoring service: the eight numeric features
      replaced by their normalised values; dependents, education and
      self-employment are sent as validated: dependents after `|| 0`,
      education and self-employment after `Number`. */
  function Payload(a: Record<real>): Record<real>
  {
    a.(cibilScore := CalculateProbability(a.cibilScore),
       incomeAnnum := NormalizeValue(a.incomeAnnum),
       loanAmount := NormalizeValue(a.loanAmount),
       loanTerm := NormalizeLoanTerm(a.loanTerm),
       residentialAssets := NormalizeValue(a.residentialAssets),
       commercialAssets := NormalizeValue(a.commercialAssets),
       luxuryAssets := NormalizeValue(a.luxuryAssets),
       bankAssets := NormalizeValue(a.bankAssets))
  }

  /** Every record the rate-check schema accepts yields a payload whose eight
      normalised features lie in [0, 1] (the score feature in [0, 0.99]), with
      the three categorical fields sent as validated. */
  lemma PayloadOfAccepted(raw: Record<JsNumber>)
    requires Validate(CheckRate, raw).Ok?
    ensures var a := Validate(CheckRate, raw).value;
      var p := Payload(a);
      && p.noOfDependents == a.noOfDependents && p.education == a.education
      && p.selfEmployed == a.selfEmployed
      && 0.0 <= p.cibilScore <= 0.99
      && 0.0 <= p.incomeAnnum <= 1.0 && 0.0 <= p.loanAmount <= 1.0
      && 0.0 <= p.loanTerm <= 1.0
      && 0.0 <= p.residentialAssets <= 1.0 && 0.0 <= p.commercialAssets <= 1.0
      && 0.0 <= p.luxuryAssets <= 1.0 && 0.0 <= p.bankAssets <= 1.0
  {
    CheckRateAccepted(raw);
  }

  /** The schema lets scores from 851 to 900 through, and the curve sends
      every one of them to 0, the feature of the lowest score, 300. */
  lemma HighScoresSendZero(raw: Record<JsNumber>)
    requires Validate(CheckRate, raw).Ok?
    requires Or(raw.cibilScore, 300.0) > 850.0
    ensures Payload(Validate(CheckRate, raw).value).cibilScore == 0.0
    ensures Payload(Validate(CheckRate, raw).value).cibilScore == CalculateProbability(300.0)
  {
    CheckRateAccepted(raw);
    ProbabilityLandmarks();
  }

  /** A worked example: income 50000, loan 20000, a 6-month term, score 720,
      residential assets 10000 and bank assets 5000. */
  lemma PayloadExample()
    ensures Payload(Record(2.0, 1.0, 0.0, 50000.0, 20000.0, 6.0, 720.0, 10000.0, 0.0, 0.0, 5000.0))
      == Record(2.0, 1.0, 0.0, 0.5, 0.2, 0.4545, 0.86, 0.1, 0.0, 0.0, 0.05)
  {
    UnitValues();
  }

  /** The live preview under the credit-score question: `Number(value)` of a
      NaN fails every tier test, so its probability is 0. */
  function PreviewProbability(x: JsNumber): real
  {
    match x
    case NaN => 0.0
    case Num(v) => CalculateProbability(v)
  }

  /** The live preview of an amount: NaN stays NaN. */
  function PreviewValue(x: JsNumber): JsNumber
  {
    match x
    case NaN => NaN
    case Num(v) => Num(NormalizeValue(v))
  }

  function PreviewTerm(x: JsNumber): JsNumber
  {
    match x
    case NaN => NaN
    case Num(v) => Num(NormalizeLoanTerm(v))
  }

  /** The normalised values shown under the amount and term questions. */
  datatype Preview = Preview(
    income: JsNumber, loan: JsNumber, term: JsNumber, residential: JsNumber,
    commercial: JsNumber, luxury: JsNumber, bank: JsNumber)

  const InitialPreview := Preview(Num(0.0), Num(0.0), Num(0.0), Num(0.0), Num(0.0), Num(0.0), Num(0.0))

  function PreviewOf(values: Record<JsNumber>): Preview
  {
    Preview(
      PreviewValue(values.incomeAnnum), PreviewValue(values.loanAmount),
      PreviewTerm(values.loanTerm), PreviewValue(values.residentialAssets),
      PreviewValue(values.commercialAssets), PreviewValue(values.luxuryAssets),
      PreviewValue(values.bankAssets))
  }

  /** A preview shows the same value the submission sends for that field,
      whenever the raw value is one the schema takes as it is: the income
      and the loan amount always (the schema rejects them when falsy), the
      score always (a falsy score previews 0 and is sent as the feature of
      300, which is 0), the term when it is not falsy, and an asset when it
      is a number. A NaN asset previews NaN and is sent as 0. */
  lemma PreviewMatchesPayload(raw: Record<JsNumber>)
    requires Validate(CheckRate, raw).Ok?
    ensures var p := Payload(Validate(CheckRate, raw).value);
      && PreviewOf(raw).income == Num(p.incomeAnnum)
      && PreviewOf(raw).loan == Num(p.loanAmount)
      && PreviewProbability(raw.cibilScore) == p.cibilScore
      && (!Falsy(raw.loanTerm) ==> PreviewOf(raw).term == Num(p.loanTerm))
      && (raw.residentialAssets.Num? ==> PreviewOf(raw).residential == Num(p.residentialAssets))
      && (raw.commercialAssets.Num? ==> PreviewOf(raw).commercial == Num(p.commercialAssets))
      && (raw.luxuryAssets.Num? ==> PreviewOf(raw).luxury == Num(p.luxuryAssets))
      && (raw.bankAssets.Num? ==> PreviewOf(raw).bank == Num(p.bankAssets))
      && (raw.residentialAssets == NaN ==> PreviewOf(raw).residential == NaN && p.residentialAssets == 0.0)
      && (raw.commercialAssets == NaN ==> PreviewOf(raw).commercial == NaN && p.commercialAssets == 0.0)
      && (raw.luxuryAssets == NaN ==> PreviewOf(raw).luxury == NaN && p.luxuryAssets == 0.0)
      && (raw.bankAssets == NaN ==> PreviewOf(raw).bank == NaN && p.bankAssets == 0.0)
  {
    CheckRateAccepted(raw);
    ProbabilityLandmarks();
    assert CalculateProbability(0.0) == 0.0;
    assert NormalizeValue(0.0) == 0.0 by {
      NormalizeValueFacts(0.0);
      UnitValues();
      RoundToUnitOfGrid(0, 10000.0);
    }
  }

  /** One visit to the rate-check page. */
  class Session {
    var step: int
    var prediction: Option<string>
    var loading: bool
    var error: Option<string>
    var values: Record<JsNumber>
    var displayProbability: real
    var displayValues: Preview

    /** The step always names one of the questions. */
    ghost predicate Valid()
      reads this
    {
      0 <= step <= LastStep
    }

    constructor ()
      ensures Valid()
      ensures step == 0 && prediction == None && !loading && error == None
      ensures values == Defaults(CheckRate)
      ensures displayProbability == 0.0 && displayValues == InitialPreview
    {
      step := 0;
      prediction := None;
      loading := false;
      error := None;
      values := Defaults(CheckRate);
      displayProbability := 0.0;
      displayValues := InitialPreview;
    }

    /** The questions rendered at the current step. */
    function VisibleFields(): (shown: seq<Field>)
      reads this
      requires Valid()
      ensures shown == [Steps[step]]
    {
      ShownAtIsOne(Steps, step, 0);
      ShownAt(Steps, step, 0)
    }

    /** The Previous button is rendered only after the first question. */
    predicate PreviousOffered()
      reads this
    {
      step > 0
    }

    /** Before the last question the form shows Next; on it, the submit button. */
    predicate NextOffered()
      reads this
    {
      step < LastStep
    }

    /** The submit button is disabled while a request is in flight. */
    predicate SubmitEnabled()
      reads this
    {
      !NextOffered() && !loading
    }

    /** The result overlay is shown while the prediction is a non-empty string. */
    predicate ResultShown()
      reads this
    {
      prediction.Some? && prediction.value != ""
    }

    /** A field's onChange, followed by the watch subscription that refreshes
        the preview (the probability only when the score changed). */
    method Edit(f: Field, x: JsNumber)
      modifies this
      ensures values == Set(old(values), f, x)
      ensures displayValues == PreviewOf(values)
      ensures displayProbability == if f == CibilScore then PreviewProbability(x) else old(displayProbability)
      ensures step == old(step) && prediction == old(prediction)
      ensures loading == old(loading) && error == old(error)
    {
      values := Set(values, f, x);
      if f == CibilScore {
        displayProbability := PreviewProbability(x);
      }
      displayValues := PreviewOf(values);
    }

    /** The Next button: `min(step + 1, last)`, one step forward and never
        past the last question. */
    method Next()
      requires Valid()
      modifies this
      ensures Valid()
      ensures step == (if old(step) < LastStep then old(step) + 1 else old(step))
      ensures prediction == old(prediction) && loading == old(loading)
      ensures error == old(error) && values == old(values)
      ensures displayProbability == old(displayProbability) && displayValues == old(displayValues)
    {
      step := if step + 1 <= LastStep then step + 1 else LastStep;
    }

    /** The Previous button, which only exists after the first question. */
    method Previous()
      requires Valid() && PreviousOffered()
      modifies this
      ensures Valid()
      ensures step == old(step) - 1
      ensures prediction == old(prediction) && loading == old(loading)
      ensures error == old(error) && values == old(values)
      ensures displayProbability == old(displayProbability) && displayValues == old(displayValues)
    {
      step := step - 1;
    }

    /** A key press on the form. Enter without Shift moves to the next
        question, or on the last one asks for submission (`submit`), which
        the caller then performs with StartSubmit. Any other key, and
        Shift+Enter, changes nothing. */
    method KeyDown(key: string, shift: bool) returns (submit: bool)
      requires Valid()
      modifies this
      ensures Valid()
      ensures submit <==> key == "Enter" && !shift && old(step) == LastStep
      ensures step == (if key == "Enter" && !shift && old(step) < LastStep then old(step) + 1 else old(step))
      ensures prediction == old(prediction) && loading == old(loading)
      ensures error == old(error) && values == old(values)
      ensures displayProbability == old(displayProbability) && displayValues == old(displayValues)
    {
      submit := false;
      if key == "Enter" && !shift {
        if step < LastStep {
          step := step + 1;
        } else {
          submit := true;
        }
      }
    }

    /** Submission up to the call: when the schema accepts the form's values,
        loading starts, the error is cleared and the normalised payload is
        returned for posting; otherwise nothing changes and nothing is sent. */
    method StartSubmit() returns (payload: Option<Record<real>>)
      requires Valid()
      modifies this
      ensures Valid()
      ensures payload.Some? <==> Validate(CheckRate, values).Ok?
      ensures payload.Some? ==> payload.value == Payload(Validate(CheckRate, values).value)
      ensures payload.Some? ==> loading && error == None
      ensures payload.None? ==> loading == old(loading) && error == old(error)
      ensures payload.Some? ==> !SubmitEnabled()
      ensures step == old(step) && prediction == old(prediction) && values == old(values)
      ensures displayProbability == old(displayProbability) && displayValues == old(displayValues)
    {
      match Validate(CheckRate, values)
      case Ok(a) =>
        loading := true;
        error := None;
        payload := Some(Payload(a));
      case Err(_) =>
        payload := None;
    }

    /** Submission after the call: a reply sets the prediction to its status,
        a failure sets the error message and keeps the previous prediction;
        loading ends either way and the entered values stay. */
    method FinishSubmit(reply: Reply)
      requires Valid()
      modifies this
      ensures Valid()
      ensures !loading
      ensures reply.Received? ==> prediction == reply.status && error == old(error)
      ensures reply.Failed? ==> prediction == old(prediction) && error == Some(FailureMessage)
      ensures SubmitEnabled() <==> !NextOffered()
      ensures step == old(step) && values == old(values)
      ensures displayProbability == old(displayProbability) && displayValues == old(displayValues)
    {
      match reply {
        case Received(status) =>
          prediction := status;
        case Failed =>
          error := Some(FailureMessage);
      }
      loading := false;
    }

    /** Closing the result overlay: no prediction, back to the first question
        and to the initial values; the error message, the loading flag and
        the score preview stay (the watch refreshes that preview only when
        the score field itself changes). What the amount and term previews
        show afterwards is left unspecified. */
    method CloseResult()
      requires Valid()
      modifies this
      ensures Valid()
      ensures prediction == None && step == 0 && values == Defaults(CheckRate)
      ensures !ResultShown()
      ensures loading == old(loading) && error == old(error)
      ensures displayProbability == old(displayProbability)
    {
      prediction := None;
      step := 0;
      values := Defaults(CheckRate);
    }
  }

  /** The questions before step n hold the given answers. */
  predicate AnsweredBefore(values: Record<JsNumber>, answers: Record<JsNumber>, n: int)
  {
    forall i :: 0 <= i < n && i < |Steps| ==> Get(values, Steps[i]) == Get(answers, Steps[i])
  }

  /** Typing the answer to question n keeps the earlier answers, since no
      field is asked twice. */
  lemma AnswerKept(values: Record<JsNumber>, answers: Record<JsNumber>, n: int)
    requires 0 <= n <= LastStep && AnsweredBefore(values, answers, n)
    ensures AnsweredBefore(Set(values, Steps[n], Get(answers, Steps[n])), answers, n + 1)
  {
    StepsAskEachFieldOnce();
  }

  /** Once every question is answered, the form holds exactly the answers. */
  lemma AllAnswered(values: Record<JsNumber>, answers: Record<JsNumber>)
    requires AnsweredBefore(values, answers, |Steps|)
    ensures values == answers
  {
    StepsAskEachFieldOnce();
    forall f ensures Get(values, f) == Get(answers, f) {
      assert f in Steps;
      var i :| 0 <= i < |Steps| && Steps[i] == f;
    }
    RecordsAgree(values, answers);
  }

  /** The user goes through the questions from the first: at each step they
      type the answer into the one field shown and press Enter, until Enter
      on the last question asks for submission. */
  method AnswerAll(s: Session, answers: Record<JsNumber>)
    requires s.Valid() && s.step == 0
    modifies s
    ensures s.Valid() && s.step == LastStep
    ensures s.values == answers
    ensures s.prediction == old(s.prediction) && s.loading == old(s.loading)
    ensures s.error == old(s.error)
    ensures s.displayValues == PreviewOf(answers)
    ensures s.displayProbability == PreviewProbability(answers.cibilScore)
  {
    var submit := false;
    while !submit
      invariant s.Valid()
      invariant submit ==> s.step == LastStep
      invariant AnsweredBefore(s.values, answers, if submit then s.step + 1 else s.step)
      invariant s.prediction == old(s.prediction) && s.loading == old(s.loading)
      invariant s.error == old(s.error)
      invariant submit ==> s.displayValues == PreviewOf(s.values)
      invariant (if submit then s.step + 1 else s.step) > 6 ==>
        s.displayProbability == PreviewProbability(answers.cibilScore)
      decreases 2 * (LastStep - s.step) + (if submit then 0 else 1)
    {
      var shown := s.VisibleFields();
      var f := shown[0];
      AnswerKept(s.values, answers, s.step);
      s.Edit(f, Get(answers, f));
      submit := s.KeyDown("Enter", false);
    }
    AllAnswered(s.values, answers);
  }

  /** A visit with valid answers, a reply and the overlay closed: the score
      field is back at 300, whose feature is 0, while the score preview still
      shows the feature of the score answered; for 720 that is 0.86. */
  method ScorePreviewSurvivesClose(answers: Record<JsNumber>) returns (score: JsNumber, shown: real)
    requires Validate(CheckRate, answers).Ok?
    ensures score == Num(300.0) && PreviewProbability(score) == 0.0
    ensures shown == PreviewProbability(answers.cibilScore)
    ensures answers.cibilScore == Num(720.0) ==> shown == 0.86
  {
    var s := new Session();
    AnswerAll(s, answers);
    var sent := s.StartSubmit();
    s.FinishSubmit(Received(Some("Approved")));
    s.CloseResult();
    ProbabilityLandmarks();
    PayloadExample();
    score, shown := s.values.cibilScore, s.displayProbability;
  }

  /** A whole visit with valid answers that the service approves: the
      normalised answers are sent and the overlay shows "Approved". */
  method ApprovedVisit(answers: Record<JsNumber>) returns (sent: Option<Record<real>>, shown: Option<string>)
    requires Validate(CheckRate, answers).Ok?
    ensures sent == Some(Payload(Validate(CheckRate, answers).value))
    ensures shown == Some("Approved")
  {
    var s := new Session();
    AnswerAll(s, answers);
    sent := s.StartSubmit();
    s.FinishSubmit(Received(Some("Approved")));
    shown := s.prediction;
  }

  /** A whole visit whose call fails: the failure message is shown, no
      prediction appears, the answers are kept, and submitting again sends
      the very same payload. */
  method FailedVisitRetried(answers: Record<JsNumber>)
    returns (firstSent: Option<Record<real>>, shownError: Option<string>, shown: Option<string>, retrySent: Option<Record<real>>)
    requires Validate(CheckRate, answers).Ok?
    ensures firstSent == Some(Payload(Validate(CheckRate, answers).value))
    ensures shownError == Some(FailureMessage) && shown == None
    ensures retrySent == firstSent
  {
    var s := new Session();
    AnswerAll(s, answers);
    firstSent := s.StartSubmit();
    s.FinishSubmit(Failed);
    shownError, shown := s.error, s.prediction;
    retrySent := s.StartSubmit();
  }
}
