/** One channel send: the account check, the POST, and how its failure is classified. */
module ChannelSend {
  import opened Basics

  /** The exceptions a send can raise, by the class that the classifier tests. */
  datatype SendError =
    | AccountMismatch
    | PreSendAuth
    | RetryableError
    | PermanentError
    | UncertainError
    | Api(status: int)
    | TimedOut
    | TransportFailed
    | BadResponse
    | BadValue
    | Unexpected

  datatype FailureKind = Retryable | Permanent | Uncertain

  function Classify(e: SendError): FailureKind {
    match e
    case AccountMismatch => Permanent
    case PreSendAuth => Retryable
    case RetryableError => Retryable
    case PermanentError => Permanent
    case UncertainError => Uncertain
    case Api(status) => if status == 429 then Retryable else if 500 <= status < 600 then Uncertain else Permanent
    case TimedOut => Uncertain
    case TransportFailed => Uncertain
    case BadResponse => Uncertain
    case BadValue => Permanent
    case Unexpected => Uncertain
  }

  /** What the provider endpoint did with a POST. */
  datatype Reply = Answer(status: int, usableBody: bool) | NoAnswerInTime | Unreachable | Broken

  /** The provider may have accepted the message: a 2xx or 5xx answer, or no definite answer at all. */
  predicate MayHaveEffect(reply: Reply) {
    match reply
    case Answer(status, _) => 200 <= status < 300 || 500 <= status < 600
    case NoAnswerInTime => true
    case Unreachable => true
    case Broken => true
  }

  /** The error a POST raises, if any; 204 needs no body. */
  function ReplyError(reply: Reply): Option<SendError> {
    match reply
    case Answer(status, usable) =>
      if !(200 <= status < 300) then Some(Api(status))
      else if status == 204 || usable then None
      else Some(BadResponse)
    case NoAnswerInTime => Some(TimedOut)
    case Unreachable => Some(TransportFailed)
    case Broken => Some(Unexpected)
  }

  /** The account observed just before sending; `None` when the status request failed or named no account. */
  type AccountCheck = Option<string>

  datatype Sent = Sent(posted: bool, error: Option<SendError>)

  function SendText(accountId: string, conversation: string, content: string, account: AccountCheck,
                    reply: Reply): (s: Sent)
    ensures !s.posted ==> s.error.Some?
  {
    if conversation == "" || content == "" then Sent(false, Some(BadValue))
    else if account.None? then Sent(false, Some(PreSendAuth))
    else if account.value != accountId then Sent(false, Some(AccountMismatch))
    else Sent(true, ReplyError(reply))
  }

  /**
   Which failures are retried, given up and quarantined. Before the POST only an account that could not be read is
   retried; after it only a 429 is, any other definite refusal is given up, and whatever may have had an effect is
   quarantined.
   */
  lemma FailureClass(accountId: string, conversation: string, content: string, account: AccountCheck, reply: Reply)
    ensures var s := SendText(accountId, conversation, content, account, reply);
            && (!s.posted <==> conversation == "" || content == "" || account != Some(accountId))
            && (s.error.Some? ==>
                  && (Classify(s.error.value).Retryable? <==>
                        if s.posted then reply.Answer? && reply.status == 429
                        else conversation != "" && content != "" && account.None?)
                  && (Classify(s.error.value).Uncertain? <==> s.posted && MayHaveEffect(reply)))
            && (s.error.None? <==>
                  s.posted && reply.Answer? && 200 <= reply.status < 300 && (reply.status == 204 || reply.usableBody))
  {
    match reply
    case Answer(status, usable) =>
    case NoAnswerInTime =>
    case Unreachable =>
    case Broken =>
  }

  /** What a step before the send raises under its own class is taken at its word; the unexpected is quarantined. */
  lemma RaisedClass(e: SendError)
    requires !e.Api?
    ensures Classify(e).Retryable? <==> e in {RetryableError, PreSendAuth}
    ensures Classify(e).Permanent? <==> e in {PermanentError, AccountMismatch, BadValue}
  {
    match e case _ =>
  }

  /** Nothing leaves for another account, and only a send that certainly had no effect may be retried or given up. */
  lemma SendIsFenced(accountId: string, conversation: string, content: string, account: AccountCheck, reply: Reply)
    ensures var s := SendText(accountId, conversation, content, account, reply);
            && (s.posted ==> account == Some(accountId))
            && (s.posted && MayHaveEffect(reply) && s.error.Some? ==> Classify(s.error.value) == Uncertain)
            && (s.error.None? ==> s.posted && MayHaveEffect(reply))
  {
    match reply
    case Answer(status, usable) =>
    case NoAnswerInTime =>
    case Unreachable =>
    case Broken =>
  }
}
