/** What both forms get back from the external scoring service. The HTTP
    call itself is outside the model: its outcome is an input. */
module Scoring {
  import opened Wrappers

  /** A reply's `loan_status` ("Approved", "Rejected", or anything else the
      service sends; `None` when the field is missing), or a failed call. */
  datatype Reply = Received(status: Option<string>) | Failed

  /** The message both forms show when the call fails for any reason. */
  const FailureMessage := "Failed to get prediction. Try again."
}
