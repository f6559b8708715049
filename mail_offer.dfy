/** The mail-offer form: all eleven fields on one page, validated by its own
    copy of the schema and posted to the scoring service as validated, with
    no normalisation. */
module MailOfferForm {
  import opened Wrappers
  import opened JsNumbers
  import opened FormSchema
  import opened Scoring

  /** A falsy term becomes 12 months here, where the rate-check form makes it
      1, and any positive term passes; the other fields get the same defaults
      as in the rate-check form. */
  lemma MailOfferDefaults(raw: Record<JsNumber>)
    ensures Falsy(raw.loanTerm) ==> CoercedValue(MailOffer, LoanTerm, raw.loanTerm) == 12.0
    ensures Falsy(raw.loanTerm) ==> CoercedValue(CheckRate, LoanTerm, raw.loanTerm) == 1.0
    ensures Falsy(raw.cibilScore) ==> CoercedValue(MailOffer, CibilScore, raw.cibilScore) == 300.0
    ensures forall f :: f != LoanTerm ==> RuleOf(MailOffer, f) == RuleOf(CheckRate, f)
    ensures InBounds(MailOffer, LoanTerm, raw.loanTerm) <==> Or(raw.loanTerm, 12.0) > 0.0
  {
  }

  /** One visit to the mail-offer page. */
  class Session {
    var prediction: Option<string>
    var loading: bool
    var error: Option<string>
    var values: Record<JsNumber>

    constructor ()
      ensures prediction == None && !loading && error == None
      ensures values == Defaults(MailOffer)
    {
      prediction := None;
      loading := false;
      error := None;
      values := Defaults(MailOffer);
    }

    /** The submit button is disabled while a request is in flight. */
    predicate SubmitEnabled()
      reads this
    {
      !loading
    }

    /** A field's onChange. */
    method Edit(f: Field, x: JsNumber)
      modifies this
      ensures values == Set(old(values), f, x)
      ensures prediction == old(prediction) && loading == old(loading) && error == old(error)
    {
      values := Set(values, f, x);
    }

    /** Submission up to the call: when the schema accepts the form's values,
        loading starts, the error is cleared and the validated values
        themselves are returned for posting; otherwise nothing changes. */
    method StartSubmit() returns (payload: Option<Record<real>>)
      modifies this
      ensures payload.Some? <==> Validate(MailOffer, values).Ok?
      ensures payload.Some? ==> payload.value == Validate(MailOffer, values).value
      ensures payload.Some? ==> loading && error == None
      ensures payload.None? ==> loading == old(loading) && error == old(error)
      ensures payload.Some? ==> !SubmitEnabled()
      ensures prediction == old(prediction) && values == old(values)
    {
      match Validate(MailOffer, values)
      case Ok(a) =>
        loading := true;
        error := None;
        payload := Some(a);
      case Err(_) =>
        payload := None;
    }

    /** Submission after the call: a reply sets the prediction to its status,
        a failure sets the error message; loading ends either way. */
    method FinishSubmit(reply: Reply)
      modifies this
      ensures !loading && SubmitEnabled()
      ensures reply.Received? ==> prediction == reply.status && error == old(error)
      ensures reply.Failed? ==> prediction == old(prediction) && error == Some(FailureMessage)
      ensures values == old(values)
    {
      match reply {
        case Received(status) =>
          prediction := status;
        case Failed =>
          error := Some(FailureMessage);
      }
      loading := false;
    }
  }
}
