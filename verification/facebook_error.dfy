/** The check the bot applies to the platform's answer after each send
    (facebook/error.go). JSON decoding is abstracted: the check receives the
    value the decoder filled in and the decoder's own error, if any. */
module FacebookError {
  import opened Wrappers

  datatype QueryError = QueryError(message: string, kind: string, code: int, errorSubcode: int, fbTraceId: string)

  datatype QueryResponse = QueryResponse(error: Option<QueryError>, result: string)

  const FACEBOOK_ERROR_PREFIX := "Facebook error: "

  /** `CheckFacebookError`: an error exactly when the platform reported one.
      The decoder's own failure is overwritten or dropped. */
  function CheckFacebookError(decoded: QueryResponse, decodeError: Option<string>): (err: Option<string>)
    ensures err.Some? <==> decoded.error.Some?
    ensures err.Some? ==> err.value == FACEBOOK_ERROR_PREFIX + decoded.error.value.message
  {
    match decoded.error
    case Some(e) => Some(FACEBOOK_ERROR_PREFIX + e.message)
    case None => None
  }

  /** Neither the `result` field nor a decoding failure changes the verdict. */
  lemma CheckIgnoresResultAndDecodeError(e: Option<QueryError>, r1: string, r2: string, d1: Option<string>, d2: Option<string>)
    ensures CheckFacebookError(QueryResponse(e, r1), d1) == CheckFacebookError(QueryResponse(e, r2), d2)
  {
  }
}
