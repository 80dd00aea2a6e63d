/** The XPCOM status codes the modelled Gecko code returns. */
module NsResults {

  datatype NsResult =
    | NsOk
    | NsErrorFailure
    | NsErrorInvalidArg
    | NsErrorUnexpected
  {
    predicate Succeeded() { this == NsOk }
  }
}
