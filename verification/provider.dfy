/** The hosted model provider as seen by the pipeline: a client whose two
    endpoints are oracles. Each reply is either a result or one of the
    exception classes the pipeline distinguishes. */
module Provider {
  import opened Prompt

  /** A moderation call: the verdict, an `APIError` (connection failures and
      timeouts included), or any other exception. */
  datatype ModerationReply =
    | NotFlagged
    | Flagged
    | ModerationApiError(detail: string)
    | ModerationOtherError(detail: string)

  /** A chat-completion call on (system instruction, user message). The
      system message is always one of the two fixed instruction texts, so
      the endpoint is indexed by which one. */
  datatype ChatReply =
    | Reply(content: string)
    | RateLimited
    | ConnectionFailed
    | ProviderError(detail: string)
    | OtherError(detail: string)

  datatype Client = Client(moderate: string -> ModerationReply, chat: (Instruction, string) -> ChatReply)
}
