/** The input schemas of the two loan forms. Each field is coerced with
    `Number(val) || default` (or `Number(val)` alone) and then checked against
    its bounds. The two forms declare the same eleven fields; they differ only
    in the loan term's default and bounds. */
module FormSchema {
  import opened Wrappers
  import opened JsNumbers

  /** The eleven fields, in the order both schemas declare them. */
  datatype Field =
    | NoOfDependents | Education | SelfEmployed | IncomeAnnum | LoanAmount
    | LoanTerm | CibilScore | ResidentialAssets | CommercialAssets
    | LuxuryAssets | BankAssets

  const Fields: seq<Field> := [
    NoOfDependents, Education, SelfEmployed, IncomeAnnum, LoanAmount,
    LoanTerm, CibilScore, ResidentialAssets, CommercialAssets,
    LuxuryAssets, BankAssets
  ]

  /** Both schemas list every field, each once. */
  lemma FieldsComplete(f: Field)
    ensures f in Fields
  {
    match f
    case NoOfDependents => assert Fields[0] == f;
    case Education => assert Fields[1] == f;
    case SelfEmployed => assert Fields[2] == f;
    case IncomeAnnum => assert Fields[3] == f;
    case LoanAmount => assert Fields[4] == f;
    case LoanTerm => assert Fields[5] == f;
    case CibilScore => assert Fields[6] == f;
    case ResidentialAssets => assert Fields[7] == f;
    case CommercialAssets => assert Fields[8] == f;
    case LuxuryAssets => assert Fields[9] == f;
    case BankAssets => assert Fields[10] == f;
  }

  /** One value per field: raw form values, validated numbers, or the
      normalised payload. */
  datatype Record<T> = Record(
    noOfDependents: T, education: T, selfEmployed: T, incomeAnnum: T,
    loanAmount: T, loanTerm: T, cibilScore: T, residentialAssets: T,
    commercialAssets: T, luxuryAssets: T, bankAssets: T)

  function Get<T>(r: Record<T>, f: Field): T
  {
    match f
    case NoOfDependents => r.noOfDependents
    case Education => r.education
    case SelfEmployed => r.selfEmployed
    case IncomeAnnum => r.incomeAnnum
    case LoanAmount => r.loanAmount
    case LoanTerm => r.loanTerm
    case CibilScore => r.cibilScore
    case ResidentialAssets => r.residentialAssets
    case CommercialAssets => r.commercialAssets
    case LuxuryAssets => r.luxuryAssets
    case BankAssets => r.bankAssets
  }

  /** The record with field f replaced by x (a form field's onChange). */
  function Set<T>(r: Record<T>, f: Field, x: T): (r': Record<T>)
    ensures Get(r', f) == x
    ensures forall g :: g != f ==> Get(r', g) == Get(r, g)
  {
    match f
    case NoOfDependents => r.(noOfDependents := x)
    case Education => r.(education := x)
    case SelfEmployed => r.(selfEmployed := x)
    case IncomeAnnum => r.(incomeAnnum := x)
    case LoanAmount => r.(loanAmount := x)
    case LoanTerm => r.(loanTerm := x)
    case CibilScore => r.(cibilScore := x)
    case ResidentialAssets => r.(residentialAssets := x)
    case CommercialAssets => r.(commercialAssets := x)
    case LuxuryAssets => r.(luxuryAssets := x)
    case BankAssets => r.(bankAssets := x)
  }

  /** One zod refinement with its message: `.min(b)`, `.max(b)`, `.positive()`. */
  datatype Check =
    | AtLeast(bound: real, message: string)
    | AtMost(bound: real, message: string)
    | Positive(message: string)

  predicate Holds(c: Check, v: real)
  {
    match c
    case AtLeast(b, _) => v >= b
    case AtMost(b, _) => v <= b
    case Positive(_) => v > 0.0
  }

  /** A field's declaration: the `|| default` of its preprocessing step, if it
      has one, and the refinements of its `z.number()`. */
  datatype Rule = Rule(fallback: Option<real>, checks: seq<Check>)

  /** The two forms that declare a schema. */
  datatype Form = CheckRate | MailOffer

  const DependentsMessage := "Invalid number of dependents"
  const IncomeMessage := "Income must be positive"
  const LoanAmountMessage := "Loan amount must be positive"
  const MinTermMessage := "Minimum term is 1 month"
  const MaxTermMessage := "Maximum term is 12 months"
  const TermPositiveMessage := "Loan term must be positive"
  const ScoreMessage := "Invalid CIBIL score"
  const AssetMessage := "Invalid asset value"
  /** zod's own message when `z.number()` receives NaN. */
  const NotANumberMessage := "Expected number, received nan"

  function RuleOf(form: Form, f: Field): Rule
  {
    match f
    case NoOfDependents => Rule(Some(0.0), [AtLeast(0.0, DependentsMessage)])
    case Education => Rule(None, [])
    case SelfEmployed => Rule(None, [])
    case IncomeAnnum => Rule(Some(0.0), [Positive(IncomeMessage)])
    case LoanAmount => Rule(Some(0.0), [Positive(LoanAmountMessage)])
    case LoanTerm =>
      if form == CheckRate then Rule(Some(1.0), [AtLeast(1.0, MinTermMessage), AtMost(12.0, MaxTermMessage)])
      else Rule(Some(12.0), [Positive(TermPositiveMessage)])
    case CibilScore => Rule(Some(300.0), [AtLeast(300.0, ScoreMessage), AtMost(900.0, ScoreMessage)])
    case ResidentialAssets => Rule(Some(0.0), [AtLeast(0.0, AssetMessage)])
    case CommercialAssets => Rule(Some(0.0), [AtLeast(0.0, AssetMessage)])
    case LuxuryAssets => Rule(Some(0.0), [AtLeast(0.0, AssetMessage)])
    case BankAssets => Rule(Some(0.0), [AtLeast(0.0, AssetMessage)])
  }

  /** The preprocessing step: `Number(val) || default`, or `Number(val)`. */
  function Coerce(rule: Rule, x: JsNumber): JsNumber
  {
    match rule.fallback
    case Some(d) => Num(Or(x, d))
    case None => x
  }

  /** A validation failure, reported against its field. */
  datatype Issue = Issue(field: Field, message: string)

  /** The messages of the refinements that v fails, in declaration order. */
  function FailedChecks(f: Field, checks: seq<Check>, v: real): (issues: seq<Issue>)
    ensures issues == [] <==> forall i :: 0 <= i < |checks| ==> Holds(checks[i], v)
    ensures forall i :: 0 <= i < |issues| ==> issues[i].field == f
  {
    if checks == [] then []
    else
      (if Holds(checks[0], v) then [] else [Issue(f, checks[0].message)])
      + FailedChecks(f, checks[1..], v)
  }

  /** The issues of one field: a NaN fails the type check and nothing else
      is checked; a number is checked against every refinement. */
  function FieldIssues(form: Form, f: Field, raw: JsNumber): seq<Issue>
  {
    match Coerce(RuleOf(form, f), raw)
    case NaN => [Issue(f, NotANumberMessage)]
    case Num(v) => FailedChecks(f, RuleOf(form, f).checks, v)
  }

  /** A field value that the schema accepts. */
  predicate Admissible(form: Form, f: Field, raw: JsNumber)
  {
    FieldIssues(form, f, raw) == []
  }

  /** The issues of the given fields, field after field. */
  function IssuesOf(form: Form, raw: Record<JsNumber>, fs: seq<Field>): (issues: seq<Issue>)
  {
    if fs == [] then [] else FieldIssues(form, fs[0], Get(raw, fs[0])) + IssuesOf(form, raw, fs[1..])
  }

  /** The number a field contributes once validation has passed. */
  function CoercedValue(form: Form, f: Field, raw: JsNumber): real
  {
    match Coerce(RuleOf(form, f), raw)
    case NaN => 0.0
    case Num(v) => v
  }

  function CoercedRecord(form: Form, raw: Record<JsNumber>): Record<real>
  {
    Record(
      CoercedValue(form, NoOfDependents, raw.noOfDependents),
      CoercedValue(form, Education, raw.education),
      CoercedValue(form, SelfEmployed, raw.selfEmployed),
      CoercedValue(form, IncomeAnnum, raw.incomeAnnum),
      CoercedValue(form, LoanAmount, raw.loanAmount),
      CoercedValue(form, LoanTerm, raw.loanTerm),
      CoercedValue(form, CibilScore, raw.cibilScore),
      CoercedValue(form, ResidentialAssets, raw.residentialAssets),
      CoercedValue(form, CommercialAssets, raw.commercialAssets),
      CoercedValue(form, LuxuryAssets, raw.luxuryAssets),
      CoercedValue(form, BankAssets, raw.bankAssets))
  }

  /** The schema's `safeParse`: the coerced record when every field is
      admissible, otherwise every issue found, in field order. */
  function Validate(form: Form, raw: Record<JsNumber>): (r: Result<Record<real>, seq<Issue>>)
    ensures r.Ok? <==> forall f {:trigger Admissible(form, f, Get(raw, f))} :: Admissible(form, f, Get(raw, f))
    ensures r.Ok? ==> forall f :: Num(Get(r.value, f)) == Coerce(RuleOf(form, f), Get(raw, f))
    ensures r.Err? ==> r.error != [] && forall i :: 0 <= i < |r.error| ==>
      !Admissible(form, r.error[i].field, Get(raw, r.error[i].field))
  {
    IssuesOfFields(form, raw, Fields);
    IssuesOfNamed(form, raw, Fields);
    EveryFieldListed();
    var issues := IssuesOf(form, raw, Fields);
    if issues == [] then
      var rec := CoercedRecord(form, raw);
      assert forall f :: Num(Get(rec, f)) == Coerce(RuleOf(form, f), Get(raw, f)) by {
        forall f ensures Num(Get(rec, f)) == Coerce(RuleOf(form, f), Get(raw, f)) {
          CoercedRecordAt(form, raw, f);
        }
      }
      Ok(rec)
    else Err(issues)
  }

  lemma EveryFieldListed()
    ensures forall f :: f in Fields
  {
    forall f ensures f in Fields {
      FieldsComplete(f);
    }
  }

  /** An admissible field is a number once coerced, and the coerced record
      holds exactly that number. */
  lemma CoercedRecordAt(form: Form, raw: Record<JsNumber>, f: Field)
    requires Admissible(form, f, Get(raw, f))
    ensures Num(Get(CoercedRecord(form, raw), f)) == Coerce(RuleOf(form, f), Get(raw, f))
  {
    assert Coerce(RuleOf(form, f), Get(raw, f)).Num?;
  }

  /** The issues of a list of fields are empty exactly when each listed field
      is admissible ... */
  lemma {:induction false} IssuesOfFields(form: Form, raw: Record<JsNumber>, fs: seq<Field>)
    ensures IssuesOf(form, raw, fs) == [] <==> forall f {:trigger Admissible(form, f, Get(raw, f))} :: f in fs ==> Admissible(form, f, Get(raw, f))
  {
    if fs != [] {
      IssuesOfFields(form, raw, fs[1..]);
      assert forall f :: f in fs <==> f == fs[0] || f in fs[1..];
      assert (forall f {:trigger Admissible(form, f, Get(raw, f))} :: f in fs ==> Admissible(form, f, Get(raw, f)))
        ==> Admissible(form, fs[0], Get(raw, fs[0]));
    }
  }

  /** ... and every issue names a listed field that is not. */
  lemma {:induction false} IssuesOfNamed(form: Form, raw: Record<JsNumber>, fs: seq<Field>)
    ensures forall i :: 0 <= i < |IssuesOf(form, raw, fs)| ==>
      var f := IssuesOf(form, raw, fs)[i].field;
      f in fs && !Admissible(form, f, Get(raw, f))
  {
    if fs != [] {
      IssuesOfNamed(form, raw, fs[1..]);
      FieldIssuesName(form, fs[0], Get(raw, fs[0]));
      var head: seq<Issue>, tail: seq<Issue> := FieldIssues(form, fs[0], Get(raw, fs[0])), IssuesOf(form, raw, fs[1..]);
      assert IssuesOf(form, raw, fs) == head + tail;
      forall i | 0 <= i < |head + tail|
        ensures var f := (head + tail)[i].field; f in fs && !Admissible(form, f, Get(raw, f))
      {
        if i < |head| {
          assert (head + tail)[i] == head[i];
        } else {
          assert (head + tail)[i] == tail[i - |head|];
        }
      }
    }
  }

  lemma FieldIssuesName(form: Form, f: Field, raw: JsNumber)
    ensures forall i :: 0 <= i < |FieldIssues(form, f, raw)| ==> FieldIssues(form, f, raw)[i].field == f
  {
  }

  /** The bounds of each field as the two schemas state them, written out
      directly on the raw value, independently of the rule table. */
  predicate InBounds(form: Form, f: Field, x: JsNumber)
  {
    match f
    case NoOfDependents => Or(x, 0.0) >= 0.0
    case Education => x.Num?
    case SelfEmployed => x.Num?
    case IncomeAnnum => Or(x, 0.0) > 0.0
    case LoanAmount => Or(x, 0.0) > 0.0
    case LoanTerm =>
      if form == CheckRate then 1.0 <= Or(x, 1.0) <= 12.0 else Or(x, 12.0) > 0.0
    case CibilScore => 300.0 <= Or(x, 300.0) <= 900.0
    case ResidentialAssets => Or(x, 0.0) >= 0.0
    case CommercialAssets => Or(x, 0.0) >= 0.0
    case LuxuryAssets => Or(x, 0.0) >= 0.0
    case BankAssets => Or(x, 0.0) >= 0.0
  }

  /** The rule table accepts a field value exactly when the value is within
      that field's bounds. */
  lemma AdmissibleIffInBounds(form: Form, f: Field, x: JsNumber)
    ensures Admissible(form, f, x) <==> InBounds(form, f, x)
  {
    match f
    case NoOfDependents => AtLeastShape(form, f, x, 0.0, 0.0, DependentsMessage);
    case Education => AnyShape(form, f, x);
    case SelfEmployed => AnyShape(form, f, x);
    case IncomeAnnum => PositiveShape(form, f, x, 0.0, IncomeMessage);
    case LoanAmount => PositiveShape(form, f, x, 0.0, LoanAmountMessage);
    case LoanTerm =>
      if form == CheckRate {
        RangeShape(form, f, x, 1.0, 1.0, MinTermMessage, 12.0, MaxTermMessage);
      } else {
        PositiveShape(form, f, x, 12.0, TermPositiveMessage);
      }
    case CibilScore => RangeShape(form, f, x, 300.0, 300.0, ScoreMessage, 900.0, ScoreMessage);
    case ResidentialAssets => AtLeastShape(form, f, x, 0.0, 0.0, AssetMessage);
    case CommercialAssets => AtLeastShape(form, f, x, 0.0, 0.0, AssetMessage);
    case LuxuryAssets => AtLeastShape(form, f, x, 0.0, 0.0, AssetMessage);
    case BankAssets => AtLeastShape(form, f, x, 0.0, 0.0, AssetMessage);
  }

  /** The four shapes of rule the schemas use: a plain number, a lower bound,
      positivity, and a range, each after its default. */
  lemma AnyShape(form: Form, f: Field, x: JsNumber)
    requires RuleOf(form, f) == Rule(None, [])
    ensures Admissible(form, f, x) <==> x.Num?
  {
  }

  lemma AtLeastShape(form: Form, f: Field, x: JsNumber, d: real, lo: real, m: string)
    requires RuleOf(form, f) == Rule(Some(d), [AtLeast(lo, m)])
    ensures Admissible(form, f, x) <==> Or(x, d) >= lo
  {
    OneCheck(f, AtLeast(lo, m), Or(x, d));
  }

  lemma PositiveShape(form: Form, f: Field, x: JsNumber, d: real, m: string)
    requires RuleOf(form, f) == Rule(Some(d), [Positive(m)])
    ensures Admissible(form, f, x) <==> Or(x, d) > 0.0
  {
    OneCheck(f, Positive(m), Or(x, d));
  }

  lemma RangeShape(form: Form, f: Field, x: JsNumber, d: real, lo: real, m1: string, hi: real, m2: string)
    requires RuleOf(form, f) == Rule(Some(d), [AtLeast(lo, m1), AtMost(hi, m2)])
    ensures Admissible(form, f, x) <==> lo <= Or(x, d) <= hi
  {
    TwoChecks(f, AtLeast(lo, m1), AtMost(hi, m2), Or(x, d));
  }

  lemma OneCheck(f: Field, c: Check, v: real)
    ensures FailedChecks(f, [c], v) == [] <==> Holds(c, v)
  {
    assert [c][1..] == [];
  }

  lemma TwoChecks(f: Field, c: Check, d: Check, v: real)
    ensures FailedChecks(f, [c, d], v) == [] <==> Holds(c, v) && Holds(d, v)
  {
    assert [c, d][1..] == [d];
    OneCheck(f, d, v);
  }

  /** A form's record is accepted exactly when every field is within its
      bounds. */
  lemma ValidateIffInBounds(form: Form, raw: Record<JsNumber>)
    ensures Validate(form, raw).Ok? <==> forall f {:trigger InBounds(form, f, Get(raw, f))} :: InBounds(form, f, Get(raw, f))
  {
    forall f {
      AdmissibleIffInBounds(form, f, Get(raw, f));
    }
  }

  /** What the rate-check form submits after validation: every bound holds,
      and each value is the raw number, or the field's default when the raw
      value was falsy (1 month for the term, 300 for the score, 0 otherwise). */
  lemma CheckRateAccepted(raw: Record<JsNumber>)
    requires Validate(CheckRate, raw).Ok?
    ensures var a := Validate(CheckRate, raw).value;
      && a == Record(
        Or(raw.noOfDependents, 0.0), raw.education.value, raw.selfEmployed.value,
        Or(raw.incomeAnnum, 0.0), Or(raw.loanAmount, 0.0), Or(raw.loanTerm, 1.0),
        Or(raw.cibilScore, 300.0), Or(raw.residentialAssets, 0.0),
        Or(raw.commercialAssets, 0.0), Or(raw.luxuryAssets, 0.0), Or(raw.bankAssets, 0.0))
      && a.noOfDependents >= 0.0 && a.incomeAnnum > 0.0 && a.loanAmount > 0.0
      && 1.0 <= a.loanTerm <= 12.0 && 300.0 <= a.cibilScore <= 900.0
      && a.residentialAssets >= 0.0 && a.commercialAssets >= 0.0
      && a.luxuryAssets >= 0.0 && a.bankAssets >= 0.0
  {
    AcceptedIsCoerced(CheckRate, raw);
    AcceptedInBounds(CheckRate, raw);
  }

  /** What the mail-offer form submits after validation: the same as the
      rate-check form, except that a falsy term becomes 12 months and the term
      only has to be positive. */
  lemma MailOfferAccepted(raw: Record<JsNumber>)
    requires Validate(MailOffer, raw).Ok?
    ensures var a := Validate(MailOffer, raw).value;
      && a == Record(
        Or(raw.noOfDependents, 0.0), raw.education.value, raw.selfEmployed.value,
        Or(raw.incomeAnnum, 0.0), Or(raw.loanAmount, 0.0), Or(raw.loanTerm, 12.0),
        Or(raw.cibilScore, 300.0), Or(raw.residentialAssets, 0.0),
        Or(raw.commercialAssets, 0.0), Or(raw.luxuryAssets, 0.0), Or(raw.bankAssets, 0.0))
      && a.noOfDependents >= 0.0 && a.incomeAnnum > 0.0 && a.loanAmount > 0.0
      && a.loanTerm > 0.0 && 300.0 <= a.cibilScore <= 900.0
      && a.residentialAssets >= 0.0 && a.commercialAssets >= 0.0
      && a.luxuryAssets >= 0.0 && a.bankAssets >= 0.0
  {
    AcceptedIsCoerced(MailOffer, raw);
    AcceptedInBounds(MailOffer, raw);
  }

  /** An accepted record is the coerced record ... */
  lemma AcceptedIsCoerced(form: Form, raw: Record<JsNumber>)
    requires Validate(form, raw).Ok?
    ensures Validate(form, raw).value == CoercedRecord(form, raw)
  {
  }

  /** ... and every field of it is within its bounds. */
  lemma AcceptedInBounds(form: Form, raw: Record<JsNumber>)
    requires Validate(form, raw).Ok?
    ensures
      && InBounds(form, NoOfDependents, raw.noOfDependents)
      && InBounds(form, Education, raw.education) && InBounds(form, SelfEmployed, raw.selfEmployed)
      && InBounds(form, IncomeAnnum, raw.incomeAnnum) && InBounds(form, LoanAmount, raw.loanAmount)
      && InBounds(form, LoanTerm, raw.loanTerm) && InBounds(form, CibilScore, raw.cibilScore)
      && InBounds(form, ResidentialAssets, raw.residentialAssets)
      && InBounds(form, CommercialAssets, raw.commercialAssets)
      && InBounds(form, LuxuryAssets, raw.luxuryAssets) && InBounds(form, BankAssets, raw.bankAssets)
  {
    ValidateIffInBounds(form, raw);
    EachInBounds(form, raw);
  }

  lemma EachInBounds(form: Form, raw: Record<JsNumber>)
    requires forall f {:trigger InBounds(form, f, Get(raw, f))} :: InBounds(form, f, Get(raw, f))
    ensures
      && InBounds(form, NoOfDependents, raw.noOfDependents)
      && InBounds(form, Education, raw.education) && InBounds(form, SelfEmployed, raw.selfEmployed)
      && InBounds(form, IncomeAnnum, raw.incomeAnnum) && InBounds(form, LoanAmount, raw.loanAmount)
      && InBounds(form, LoanTerm, raw.loanTerm) && InBounds(form, CibilScore, raw.cibilScore)
      && InBounds(form, ResidentialAssets, raw.residentialAssets)
      && InBounds(form, CommercialAssets, raw.commercialAssets)
      && InBounds(form, LuxuryAssets, raw.luxuryAssets) && InBounds(form, BankAssets, raw.bankAssets)
  {
    assert InBounds(form, NoOfDependents, Get(raw, NoOfDependents));
    assert InBounds(form, Education, Get(raw, Education));
    assert InBounds(form, SelfEmployed, Get(raw, SelfEmployed));
    assert InBounds(form, IncomeAnnum, Get(raw, IncomeAnnum));
    assert InBounds(form, LoanAmount, Get(raw, LoanAmount));
    assert InBounds(form, LoanTerm, Get(raw, LoanTerm));
    assert InBounds(form, CibilScore, Get(raw, CibilScore));
    assert InBounds(form, ResidentialAssets, Get(raw, ResidentialAssets));
    assert InBounds(form, CommercialAssets, Get(raw, CommercialAssets));
    assert InBounds(form, LuxuryAssets, Get(raw, LuxuryAssets));
    assert InBounds(form, BankAssets, Get(raw, BankAssets));
  }

  /** Two records agree when every field does. */
  lemma RecordsAgree<T>(a: Record<T>, b: Record<T>)
    requires forall f :: Get(a, f) == Get(b, f)
    ensures a == b
  {
    assert Get(a, NoOfDependents) == Get(b, NoOfDependents);
    assert Get(a, Education) == Get(b, Education);
    assert Get(a, SelfEmployed) == Get(b, SelfEmployed);
    assert Get(a, IncomeAnnum) == Get(b, IncomeAnnum);
    assert Get(a, LoanAmount) == Get(b, LoanAmount);
    assert Get(a, LoanTerm) == Get(b, LoanTerm);
    assert Get(a, CibilScore) == Get(b, CibilScore);
    assert Get(a, ResidentialAssets) == Get(b, ResidentialAssets);
    assert Get(a, CommercialAssets) == Get(b, CommercialAssets);
    assert Get(a, LuxuryAssets) == Get(b, LuxuryAssets);
    assert Get(a, BankAssets) == Get(b, BankAssets);
  }

  /** A validated record handed back to the form as raw values. */
  function AsRaw(a: Record<real>): (raw: Record<JsNumber>)
    ensures forall f :: Get(raw, f) == Num(Get(a, f))
  {
    Record(Num(a.noOfDependents), Num(a.education), Num(a.selfEmployed),
      Num(a.incomeAnnum), Num(a.loanAmount), Num(a.loanTerm), Num(a.cibilScore),
      Num(a.residentialAssets), Num(a.commercialAssets), Num(a.luxuryAssets),
      Num(a.bankAssets))
  }

  /** Preprocessing a preprocessed value again changes nothing. */
  lemma CoerceIdempotent(rule: Rule, x: JsNumber)
    ensures Coerce(rule, Coerce(rule, x)) == Coerce(rule, x)
  {
    if rule.fallback.Some? {
      OrIdempotent(x, rule.fallback.value);
    }
  }

  /** Validation is idempotent: the record a form accepts, submitted again as
      the form's values, is accepted and comes back unchanged. */
  lemma RevalidateAccepted(form: Form, raw: Record<JsNumber>)
    requires Validate(form, raw).Ok?
    ensures Validate(form, AsRaw(Validate(form, raw).value)) == Validate(form, raw)
  {
    var a := Validate(form, raw).value;
    var again := AsRaw(a);
    forall f ensures Admissible(form, f, Get(again, f))
      && Coerce(RuleOf(form, f), Get(again, f)) == Num(Get(a, f))
    {
      assert Admissible(form, f, Get(raw, f));
      CoerceIdempotent(RuleOf(form, f), Get(raw, f));
    }
    var b := Validate(form, again).value;
    forall f ensures Get(b, f) == Get(a, f) {
      assert Admissible(form, f, Get(again, f));
    }
    RecordsAgree(b, a);
  }

  /** A missing (NaN) or zero income or loan amount is rejected by either
      form, with that field's own message among the issues. */
  lemma MissingAmountRejected(form: Form, raw: Record<JsNumber>, f: Field)
    requires f == IncomeAnnum || f == LoanAmount
    requires Falsy(Get(raw, f))
    ensures Validate(form, raw).Err?
    ensures Issue(f, if f == IncomeAnnum then IncomeMessage else LoanAmountMessage) in Validate(form, raw).error
  {
    MissingAmountIssue(form, raw, f);
    RejectedWith(form, raw);
  }

  lemma MissingAmountIssue(form: Form, raw: Record<JsNumber>, f: Field)
    requires f == IncomeAnnum || f == LoanAmount
    requires Falsy(Get(raw, f))
    ensures Issue(f, if f == IncomeAnnum then IncomeMessage else LoanAmountMessage) in IssuesOf(form, raw, Fields)
  {
    ZeroAmountIssue(form, f, Get(raw, f));
    FieldsComplete(f);
    assert Fields[0..] == Fields;
    IssuesOfContains(form, raw, Fields, 0, f);
  }

  /** Each field's own issues appear in the issues of any list that holds it. */
  lemma {:induction false} IssuesOfContains(form: Form, raw: Record<JsNumber>, fs: seq<Field>, k: nat, f: Field)
    requires k <= |fs| && f in fs[k..]
    ensures forall i :: i in FieldIssues(form, f, Get(raw, f)) ==> i in IssuesOf(form, raw, fs[k..])
    decreases |fs| - k
  {
    assert fs[k..][0] == fs[k];
    assert fs[k..][1..] == fs[k + 1..];
    if fs[k] != f {
      IssuesOfContains(form, raw, fs, k + 1, f);
    }
  }

  /** The rate-check schema is the stricter one: whatever it accepts, the
      mail-offer schema accepts too, with the same values except a falsy term,
      which becomes 12 months instead of 1. */
  lemma CheckRateStricter(raw: Record<JsNumber>)
    requires Validate(CheckRate, raw).Ok?
    ensures Validate(MailOffer, raw).Ok?
    ensures Validate(MailOffer, raw).value
      == Validate(CheckRate, raw).value.(loanTerm := Or(raw.loanTerm, 12.0))
  {
    ValidateIffInBounds(CheckRate, raw);
    ValidateIffInBounds(MailOffer, raw);
    forall f ensures InBounds(MailOffer, f, Get(raw, f)) {
      assert InBounds(CheckRate, f, Get(raw, f));
    }
    CheckRateAccepted(raw);
    MailOfferAccepted(raw);
  }

  /** The issues of two lists of fields are those of the first, then those of
      the second. */
  lemma {:induction false} IssuesOfConcat(form: Form, raw: Record<JsNumber>, xs: seq<Field>, ys: seq<Field>)
    ensures IssuesOf(form, raw, xs + ys) == IssuesOf(form, raw, xs) + IssuesOf(form, raw, ys)
  {
    if xs == [] {
      assert xs + ys == ys;
    } else {
      assert (xs + ys)[0] == xs[0];
      assert (xs + ys)[1..] == xs[1..] + ys;
      IssuesOfConcat(form, raw, xs[1..], ys);
    }
  }

  /** A 24-month term shows the difference: the mail-offer schema accepts it
      when every other field is in bounds ... */
  lemma LongTermByMail(raw: Record<JsNumber>)
    requires forall f {:trigger InBounds(CheckRate, f, Get(raw, f))} :: f != LoanTerm ==> InBounds(CheckRate, f, Get(raw, f))
    requires raw.loanTerm == Num(24.0)
    ensures Validate(MailOffer, raw).Ok?
  {
    ValidateIffInBounds(MailOffer, raw);
    forall f ensures InBounds(MailOffer, f, Get(raw, f)) {
      assert f != LoanTerm ==> InBounds(CheckRate, f, Get(raw, f));
    }
  }

  /** ... while the rate-check schema rejects it with its maximum-term message
      and nothing else. */
  lemma LongTermRejected(raw: Record<JsNumber>)
    requires forall f {:trigger InBounds(CheckRate, f, Get(raw, f))} :: f != LoanTerm ==> InBounds(CheckRate, f, Get(raw, f))
    requires raw.loanTerm == Num(24.0)
    ensures Validate(CheckRate, raw) == Err([Issue(LoanTerm, MaxTermMessage)])
  {
    LongTermIssues(raw);
    RejectedWith(CheckRate, raw);
  }

  lemma LongTermIssues(raw: Record<JsNumber>)
    requires forall f {:trigger InBounds(CheckRate, f, Get(raw, f))} :: f != LoanTerm ==> InBounds(CheckRate, f, Get(raw, f))
    requires raw.loanTerm == Num(24.0)
    ensures IssuesOf(CheckRate, raw, Fields) == [Issue(LoanTerm, MaxTermMessage)]
  {
    var before := [NoOfDependents, Education, SelfEmployed, IncomeAnnum, LoanAmount];
    var after := [CibilScore, ResidentialAssets, CommercialAssets, LuxuryAssets, BankAssets];
    assert Fields == before + [LoanTerm] + after;
    NoIssuesOutside(CheckRate, raw, before, LoanTerm);
    NoIssuesOutside(CheckRate, raw, after, LoanTerm);
    IssuesOnlyIn(CheckRate, raw, before, [LoanTerm], after);
    TermIssues(raw);
  }

  /** When the fields around a segment raise no issue, the segment's issues
      are all there is. */
  lemma IssuesOnlyIn(form: Form, raw: Record<JsNumber>, xs: seq<Field>, mid: seq<Field>, ys: seq<Field>)
    requires IssuesOf(form, raw, xs) == [] && IssuesOf(form, raw, ys) == []
    ensures IssuesOf(form, raw, xs + mid + ys) == IssuesOf(form, raw, mid)
  {
    IssuesOfConcat(form, raw, xs + mid, ys);
    IssuesOfConcat(form, raw, xs, mid);
  }

  /** A record with issues is rejected with exactly those issues. */
  lemma RejectedWith(form: Form, raw: Record<JsNumber>)
    requires IssuesOf(form, raw, Fields) != []
    ensures Validate(form, raw) == Err(IssuesOf(form, raw, Fields))
  {
  }

  /** Fields in bounds contribute no issues. */
  lemma NoIssuesOutside(form: Form, raw: Record<JsNumber>, fs: seq<Field>, g: Field)
    requires forall f {:trigger InBounds(form, f, Get(raw, f))} :: f != g ==> InBounds(form, f, Get(raw, f))
    requires g !in fs
    ensures IssuesOf(form, raw, fs) == []
  {
    NoIssuesIn(form, raw, fs);
  }

  lemma NoIssuesIn(form: Form, raw: Record<JsNumber>, fs: seq<Field>)
    requires forall f {:trigger InBounds(form, f, Get(raw, f))} :: f in fs ==> InBounds(form, f, Get(raw, f))
    ensures IssuesOf(form, raw, fs) == []
  {
    forall f | f in fs ensures Admissible(form, f, Get(raw, f)) {
      AdmissibleIffInBounds(form, f, Get(raw, f));
    }
    IssuesOfFields(form, raw, fs);
  }

  lemma TermIssues(raw: Record<JsNumber>)
    requires raw.loanTerm == Num(24.0)
    ensures IssuesOf(CheckRate, raw, [LoanTerm]) == [Issue(LoanTerm, MaxTermMessage)]
  {
    SingleField(CheckRate, raw, LoanTerm);
    var low, high := AtLeast(1.0, MinTermMessage), AtMost(12.0, MaxTermMessage);
    assert Coerce(RuleOf(CheckRate, LoanTerm), raw.loanTerm) == Num(24.0);
    assert [low, high][1..] == [high];
    assert [high][1..] == [];
    assert FailedChecks(LoanTerm, [high], 24.0) == [Issue(LoanTerm, MaxTermMessage)];
  }

  /** The form's initial values (`defaultValues`): the rate-check form starts
      with a 1-month term, the mail-offer form with 12 months. */
  function Defaults(form: Form): (d: Record<JsNumber>)
    ensures forall f :: RuleOf(form, f).fallback.Some? ==> Get(d, f) == Num(RuleOf(form, f).fallback.value)
  {
    Record(Num(0.0), Num(0.0), Num(0.0), Num(0.0), Num(0.0),
      Num(if form == CheckRate then 1.0 else 12.0),
      Num(300.0), Num(0.0), Num(0.0), Num(0.0), Num(0.0))
  }

  /** Submitting a form left at its initial values fails, on the income and
      the loan amount only. */
  lemma DefaultsRejected(form: Form)
    ensures Validate(form, Defaults(form))
      == Err([Issue(IncomeAnnum, IncomeMessage), Issue(LoanAmount, LoanAmountMessage)])
  {
    DefaultIssues(form);
    RejectedWith(form, Defaults(form));
  }

  lemma DefaultIssues(form: Form)
    ensures IssuesOf(form, Defaults(form), Fields)
      == [Issue(IncomeAnnum, IncomeMessage), Issue(LoanAmount, LoanAmountMessage)]
  {
    var raw := Defaults(form);
    var before := [NoOfDependents, Education, SelfEmployed];
    var after := [LoanTerm, CibilScore, ResidentialAssets, CommercialAssets, LuxuryAssets, BankAssets];
    assert Fields == before + [IncomeAnnum, LoanAmount] + after;
    DefaultsInBounds(form, before);
    DefaultsInBounds(form, after);
    IssuesOnlyIn(form, raw, before, [IncomeAnnum, LoanAmount], after);
    AmountIssues(form, raw);
  }

  lemma DefaultsInBounds(form: Form, fs: seq<Field>)
    requires IncomeAnnum !in fs && LoanAmount !in fs
    ensures IssuesOf(form, Defaults(form), fs) == []
  {
    forall f | f in fs ensures InBounds(form, f, Get(Defaults(form), f)) {
    }
    NoIssuesIn(form, Defaults(form), fs);
  }

  lemma AmountIssues(form: Form, raw: Record<JsNumber>)
    requires raw.incomeAnnum == Num(0.0) && raw.loanAmount == Num(0.0)
    ensures IssuesOf(form, raw, [IncomeAnnum, LoanAmount])
      == [Issue(IncomeAnnum, IncomeMessage), Issue(LoanAmount, LoanAmountMessage)]
  {
    SingleField(form, raw, IncomeAnnum);
    SingleField(form, raw, LoanAmount);
    ZeroAmountIssue(form, IncomeAnnum, raw.incomeAnnum);
    ZeroAmountIssue(form, LoanAmount, raw.loanAmount);
    IssuesOfConcat(form, raw, [IncomeAnnum], [LoanAmount]);
    assert [IncomeAnnum] + [LoanAmount] == [IncomeAnnum, LoanAmount];
  }

  lemma SingleField(form: Form, raw: Record<JsNumber>, f: Field)
    ensures IssuesOf(form, raw, [f]) == FieldIssues(form, f, Get(raw, f))
  {
    assert [f][1..] == [];
  }

  lemma ZeroAmountIssue(form: Form, f: Field, x: JsNumber)
    requires f == IncomeAnnum || f == LoanAmount
    requires Falsy(x)
    ensures FieldIssues(form, f, x) == [Issue(f, if f == IncomeAnnum then IncomeMessage else LoanAmountMessage)]
  {
    assert RuleOf(form, f).checks[1..] == [];
  }
}
