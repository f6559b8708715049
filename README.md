# Loan rate-check forms: a Dafny model

This project models the client-side logic of a personal-loan brokerage's two
loan forms.

- **Feature normaliser.** Three pure functions turn the applicant's raw
  figures into the 0..1 features the external scoring service expects:
  - `calculateProbability` is a four-tier piecewise-linear credit-score curve, rounded to 2 decimals.
  - `normalizeValue` gives an amount as a fraction of 100000, rounded to 4 decimals and capped at 1.
  - `normalizeLoanTerm` rescales months 1..12 onto 0..1, rounded to 4 decimals.
- **Input schema.** Each form field is coerced with `Number(val) || default`, or with `Number(val)` alone, and then range-checked.
  - The rate-check form and the mail-offer form each declare their own copy of the schema.
  - The two copies differ only in the loan term: its default (1 or 12 months) and its bounds (1..12, or just positive).
- **Step-form controller.** The rate-check page asks one question per step over an ordered list of the eleven fields.
  - Enter and the Next/Previous buttons move the step.
  - Submission validates the answers, normalises eight of them, and hands the record to the scoring service.
  - The reply sets the prediction. A failure sets a retry message.
  - Closing the result overlay resets the form.
- **Mail-offer controller.** The mail-offer page validates with its own schema and posts the validated values unchanged.

Numbers are exact rationals (`real`). A form value is the result of JavaScript's `Number(...)`: either a number or NaN (`JsNumbers.JsNumber`).
`Number(x.toFixed(d))` is rounding to `d` decimals, with ties going away from zero (`JsNumbers.ToFixed`).

The HTTP call is outside the model. Its outcome is an input, `Scoring.Reply`: either a received `loan_status` (possibly missing) or a failure.
`onSubmit` is asynchronous, so each form's submission is split in two:
- `StartSubmit` runs everything up to the call and returns the record to post.
- `FinishSubmit` runs everything after it.

Behaviour of the code worth knowing, which the model keeps:
- The probability is rounded to 2 decimals: a score of 699 gives 0.78 and a score of 720 gives 0.86.
- Next and Enter move between questions without validating anything. Only submission validates.
- Only closing the result overlay resets the form. It keeps the error message.
- On the last question, Enter submits even while a request is in flight. Only the submit button is disabled then.
- Credit scores from 851 to 900 pass the schema, and the curve maps every one of them to 0, the same value as a score of 300 (`CheckRateForm.HighScoresSendZero`).
- After the result overlay closes, the score preview keeps the feature of the score entered before, while the score field is back at 300 (`CheckRateForm.ScorePreviewSurvivesClose`).

Files: `wrappers.dfy` (Option, Result), `numbers.dfy` (module `JsNumbers`),
`normalizer.dfy` (`Normalizer`), `schema.dfy` (`FormSchema`), `scoring.dfy`
(`Scoring`), `check_rate.dfy` (`CheckRateForm`), `mail_offer.dfy`
(`MailOfferForm`).

## Model

| member | source | states |
|---|---|---|
| `JsNumbers.OrIdempotent` | src/pages/CheckRate.tsx:23-33 | applying `\|\| d` to its own result gives the same number: the result is never a falsy number other than the default itself |
| `JsNumbers.RoundToUnitError` | src/pages/CheckRate.tsx:59 | rounding to a fixed number of decimals moves a non-negative value by at most half a unit in the last place |
| `JsNumbers.RoundToUnitMonotone` | src/pages/CheckRate.tsx:54 | rounding to a fixed number of decimals preserves order |
| `JsNumbers.RoundToUnitIdempotent` | src/pages/CheckRate.tsx:64 | rounding an already rounded value changes nothing |
| `JsNumbers.RoundToUnitOfGrid` | src/pages/CheckRate.tsx:54 | a value that already has the requested number of decimals is left unchanged |
| `Normalizer.CalculateProbability` | src/pages/CheckRate.tsx:37-55 | every score maps into [0, 0.99]; any score below 300 or above 850 maps to 0 |
| `Normalizer.RawProbabilityBands` | src/pages/CheckRate.tsx:40-52 | before rounding each tier stays in its commented band: Excellent 0.95-0.99, Good 0.80-0.94, Fair 0.50-0.79, Poor 0-0.49, other scores 0 |
| `Normalizer.ProbabilityBands` | src/pages/CheckRate.tsx:40-54 | the same bands hold after rounding to two decimals |
| `Normalizer.RawProbabilityMonotone` | src/pages/CheckRate.tsx:40-52 | on [300, 850] the unrounded curve never decreases, across tier boundaries included |
| `Normalizer.ProbabilityMonotone` | src/pages/CheckRate.tsx:40-54 | on [300, 850] the rounded probability never decreases |
| `Normalizer.ProbabilityLandmarks` | src/pages/CheckRate.tsx:40-54 | 300 gives 0, 649 gives 0.49, 650 gives 0.50, 699 gives 0.78, 700 gives 0.80, 749 gives 0.94, 750 gives 0.95, 850 gives 0.99, 851 gives 0: the curve jumps up at 650, 700 and 750 |
| `Normalizer.NormalizeValue` | src/pages/CheckRate.tsx:58-60 | the result is at most 1; it is 1 for any amount of 100000 or more; non-negative for non-negative amounts; on [0, 100000] it is the amount/100000 rounded to 4 decimals, within 0.00005 of it |
| `Normalizer.NormalizeValueMonotone` | src/pages/CheckRate.tsx:58-60 | a larger amount never gives a smaller feature |
| `Normalizer.NormalizeLoanTerm` | src/pages/CheckRate.tsx:63-65 | 1 month gives 0, 12 months gives 1, and any term in [1, 12] gives a value in [0, 1] |
| `Normalizer.LoanTermMonotone` | src/pages/CheckRate.tsx:63-65 | a longer term never gives a smaller feature |
| `Normalizer.LoanTermStrictlyIncreasing` | src/pages/CheckRate.tsx:63-65 | over whole months 1..12 the feature strictly increases despite the rounding |
| `FormSchema.Set` | src/pages/CheckRate.tsx:353-375 | a field's onChange replaces that field's value and leaves every other field unchanged |
| `FormSchema.FailedChecks` | src/pages/CheckRate.tsx:23-33 | a field reports no issue exactly when its value passes every refinement, and every issue names that field |
| `FormSchema.Validate` | src/pages/CheckRate.tsx:22-34 | a record is accepted exactly when every field is admissible; the accepted record holds each field's coerced value; a rejection lists at least one issue, each naming a field that is not admissible |
| `FormSchema.CoerceIdempotent` | src/pages/CheckRate.tsx:23-33 | a field's preprocessing, applied to its own result, changes nothing |
| `FormSchema.RevalidateAccepted` | src/pages/CheckRate.tsx:22-34 | validation is idempotent: an accepted record, given back to the form as its values, is accepted again and comes back unchanged |
| `FormSchema.IssuesOfFields` | src/pages/CheckRate.tsx:22-34 | the issues of a list of fields are empty exactly when each listed field is admissible |
| `FormSchema.IssuesOfNamed` | src/pages/CheckRate.tsx:22-34 | every issue of a list of fields names a listed field that is not admissible |
| `FormSchema.AdmissibleIffInBounds` | src/pages/CheckRate.tsx:22-34 | the rule table accepts a value exactly when the field's bounds, written out directly, hold of `Number(val) \|\| default` |
| `FormSchema.ValidateIffInBounds` | src/pages/CheckRate.tsx:22-34 | a whole record is accepted exactly when every field is within its bounds |
| `FormSchema.CheckRateAccepted` | src/pages/CheckRate.tsx:22-34 | an accepted rate-check record has the defaults 0 / 1 month / 300 in place of falsy input, education and self-employment unchanged, 1 <= term <= 12, 300 <= score <= 900, income and loan > 0, dependents and the four assets >= 0 |
| `FormSchema.MailOfferAccepted` | src/pages/MailOffer.tsx:26-38 | an accepted mail-offer record has the defaults 0 / 12 months / 300 in place of falsy input, term > 0 with no upper bound, 300 <= score <= 900, income and loan > 0, dependents and the four assets >= 0 |
| `FormSchema.MissingAmountRejected` | src/pages/CheckRate.tsx:26-27 | a missing or zero income or loan amount is rejected, with that field's own message among the issues |
| `FormSchema.CheckRateStricter` | src/pages/MailOffer.tsx:32 | whatever the rate-check schema accepts, the mail-offer schema accepts too, with the same values except that a falsy term becomes 12 months instead of 1 |
| `FormSchema.LongTermByMail` | src/pages/MailOffer.tsx:32 | a 24-month term is accepted by the mail-offer schema when the other fields are in bounds |
| `FormSchema.LongTermRejected` | src/pages/CheckRate.tsx:28 | the same record is rejected by the rate-check schema with the single issue "Maximum term is 12 months" |
| `FormSchema.IssuesOfConcat` | src/pages/CheckRate.tsx:22-34 | issues are reported field after field in declaration order |
| `FormSchema.IssuesOfContains` | src/pages/CheckRate.tsx:22-34 | every issue of a field appears among the issues of the whole record |
| `FormSchema.Defaults` | src/pages/CheckRate.tsx:174-186 | each field's initial value equals its `\|\| default` fallback (the rate-check term 1, the mail-offer term 12, the score 300, the rest 0) |
| `FormSchema.DefaultsRejected` | src/pages/MailOffer.tsx:49-61 | a form submitted at its initial values is rejected on the income and the loan amount only, in that order |
| `MailOfferForm.MailOfferDefaults` | src/pages/MailOffer.tsx:32-33 | a falsy term becomes 12 months in the mail-offer form and 1 in the rate-check form, a falsy score becomes 300, and every rule other than the term's is the same in both forms |
| `CheckRateForm.StepsAskEachFieldOnce` | src/pages/CheckRate.tsx:255-333 | the step list has 11 entries (last index 10), holds every schema field, and holds no field twice |
| `CheckRateForm.ShownAtIsOne` | src/pages/CheckRate.tsx:343 | filtering the steps by index keeps exactly the step at that index, or nothing when the index is out of range |
| `CheckRateForm.Session.VisibleFields` | src/pages/CheckRate.tsx:343 | exactly one field is rendered: the one at the current step |
| `CheckRateForm.PayloadOfAccepted` | src/pages/CheckRate.tsx:228-238 | for an accepted record the payload sends dependents, education and self-employment as validated (dependents after `\|\| 0`, education and self-employment after `Number`); the score feature is in [0, 0.99] and the other seven features are in [0, 1] |
| `CheckRateForm.HighScoresSendZero` | src/pages/CheckRate.tsx:29-54 | an accepted score above 850 is sent as 0, the same feature as a score of 300 |
| `CheckRateForm.PayloadExample` | src/pages/CheckRate.tsx:228-238 | income 50000, loan 20000, term 6, score 720, residential 10000 and bank 5000 are sent as 0.5, 0.2, 0.4545, 0.86, 0.1 and 0.05; the other fields are sent as entered |
| `CheckRateForm.PreviewMatchesPayload` | src/pages/CheckRate.tsx:190-238 | for an accepted record the income, loan and score previews equal the features sent; the term preview does when the raw term is not falsy; each asset preview does when the raw asset is a number, and a NaN asset previews NaN while 0 is sent |
| `CheckRateForm.Session.constructor` | src/pages/CheckRate.tsx:157-187 | a visit starts at step 0 with no prediction, no error, not loading, the default values and a zero preview |
| `CheckRateForm.Session.Edit` | src/pages/CheckRate.tsx:190-209 | an edit replaces one field's value and refreshes the amount and term previews; the probability preview is refreshed only when the score changed; step and request state stay |
| `CheckRateForm.Session.Next` | src/pages/CheckRate.tsx:434 | Next moves to min(step + 1, 10) and changes nothing else |
| `CheckRateForm.Session.Previous` | src/pages/CheckRate.tsx:432 | Previous, offered only when step > 0, moves back one step and changes nothing else |
| `CheckRateForm.Session.KeyDown` | src/pages/CheckRate.tsx:212-221 | Enter without Shift advances one step before the last question and asks for submission on the last one; Shift+Enter and other keys change nothing |
| `CheckRateForm.Session.StartSubmit` | src/pages/CheckRate.tsx:223-245 | when the answers validate, loading starts (disabling the submit button), the error is cleared and the normalised payload is returned; otherwise nothing changes and nothing is sent; step, prediction, values and preview stay |
| `CheckRateForm.Session.FinishSubmit` | src/pages/CheckRate.tsx:246-252 | a reply sets the prediction to its status; a failure sets "Failed to get prediction. Try again." and keeps the prediction; loading ends, so submit is enabled again on the last question; step, answers and preview stay |
| `CheckRateForm.Session.CloseResult` | src/pages/CheckRate.tsx:455-459 | closing the overlay clears the prediction, so the overlay is no longer shown; returns to step 0 and restores the default values; the error, the loading flag and the score preview stay |
| `CheckRateForm.ScorePreviewSurvivesClose` | src/pages/CheckRate.tsx:190-196 | for any valid answers, after answering every question, submitting, a reply and closing the overlay, the score field is back at 300 (feature 0) while the score preview still shows the answered score's feature (0.86 for 720) |
| `CheckRateForm.AnswerAll` | src/pages/CheckRate.tsx:212-221 | answering the shown question and pressing Enter at each step goes through all eleven fields and ends on the last step with every answer recorded, the amount and term previews computed from the answers and the score preview from the answered score |
| `CheckRateForm.ApprovedVisit` | src/pages/CheckRate.tsx:223-253 | a visit with valid answers sends their normalised payload and, on an "Approved" reply, shows "Approved" |
| `CheckRateForm.FailedVisitRetried` | src/pages/CheckRate.tsx:248-252 | after a failed call the error message is shown, no prediction appears, and a retry sends the same payload |
| `MailOfferForm.Session.constructor` | src/pages/MailOffer.tsx:43-61 | a visit starts with no prediction, no error, not loading, and the mail-offer defaults (term 12) |
| `MailOfferForm.Session.Edit` | src/pages/MailOffer.tsx:93-102 | an edit replaces one field's value and leaves the request state alone |
| `MailOfferForm.Session.StartSubmit` | src/pages/MailOffer.tsx:65-75 | when the values validate, loading starts (disabling the submit button), the error is cleared and the validated values are returned unnormalised; otherwise nothing changes |
| `MailOfferForm.Session.FinishSubmit` | src/pages/MailOffer.tsx:76-82 | a reply sets the prediction to its status, a failure sets the retry message, and loading ends either way, enabling the submit button again |

## Left out

- Binary floating point: `toFixed` and the arithmetic are modelled over exact rationals, so IEEE rounding artefacts (for example `1.005.toFixed(2)`) are not reproduced.
- Parsing strings with `Number(...)` is not modelled: a form value is already the number or NaN that `Number` yields. Infinity is not modelled.
- `normalizeValue`'s `max` parameter: every caller uses the default 100000, which the model fixes as `Normalizer.Ceiling`.
- The HTTP call to the scoring service (src/services/api.ts and the inline `axios.post`) is an input (`Scoring.Reply`), not modelled. This includes a reply that arrives after the overlay is closed: `FinishSubmit` then applies as usual.
- The race between the Enter-key submission and the disabled submit button is event-loop concurrency. `StartSubmit` runs whenever it is called, whatever the loading flag, as the Enter path allows.
- react-hook-form and zod internals (`useForm`, `zodResolver`, field-level error state) are not modelled. A rejected submission changes nothing in the model, and its issues are only the result of `FormSchema.Validate`.
- CheckRateForm.Session.CloseResult: states nothing about the amount and term previews afterwards, because whether `form.reset()` notifies the watch subscription, which would recompute them, is library behaviour.
- JSX rendering and styling, the overlay animation and its `setTimeout` / `document.body.style` effects, toasts and `console.log`.
- The mail-offer page declares a `step` state that it never changes; it is not modelled.
- Local-storage sign-up, login and logout (Login.tsx, SignUp.tsx, Navbar.tsx) and the static page components are not part of this model.
