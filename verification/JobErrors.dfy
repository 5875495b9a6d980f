/** How the job handler turns a stage and an error into a disposition. */
module JobErrors {
  import opened Statements

  datatype Stage = ObjectStore | Ocr | Database

  /** The error classes the handler tells apart; RetryableService covers the listed Bedrock and network codes. */
  datatype JobError =
    | AbortError
    | ObjectNotFoundError
    | InvalidSourceObjectError
    | InvalidOcrImageError
    | InvalidOcrResponseError
    | RetryableServiceError
    | ClaimLostError
    | OtherError

  datatype Classification = Retryable | Permanent(code: FailureCode)

  function Classify(stage: Stage, error: JobError): Classification {
    if error.AbortError? then Retryable
    else
      match stage
      case ObjectStore =>
        if error.ObjectNotFoundError? then Permanent(SourceObjectNotFound)
        else if error.InvalidSourceObjectError? then Permanent(SourceObjectInvalid)
        else Retryable
      case Ocr =>
        if error.InvalidOcrImageError? then Permanent(UnsupportedImage)
        else if error.InvalidOcrResponseError? then Permanent(InvalidOcrResponse)
        else if error.RetryableServiceError? then Retryable
        else Permanent(OcrNonRetryable)
      case Database => Retryable
  }
}
