/** The result mappings of the two gateway adapters of the delivery worker.
    The SendGrid and Twilio clients themselves are not modelled: each call is
    replaced by the response it produced, or by the fact that it raised. */
module Adapters {

  datatype Option<T> = None | Some(value: T)

  /** What the SendGrid client's `send` did: returned a response with an
      HTTP status code, or raised (credentials, network, client errors). */
  datatype EmailResponse = EmailReturned(statusCode: int) | EmailRaised

  /** What the Twilio client's `create` did: returned a message whose `sid`
      may be missing (`None`) or a string, or raised. */
  datatype SmsResponse = SmsReturned(sid: Option<string>) | SmsRaised

  /** `send_email`: the email counts as sent only when SendGrid answered 202
      Accepted; any other status code and any exception give `false`. */
  function SendEmail(response: EmailResponse): (sent: bool)
    ensures sent <==> response == EmailReturned(202)
  {
    match response
    case EmailReturned(code) => code == 202
    case EmailRaised => false
  }

  /** A Python string is truthy when it is present and not empty. */
  predicate Truthy(sid: Option<string>)
  {
    sid.Some? && sid.value != ""
  }

  /** `send_sms`: the SMS counts as sent only when Twilio returned a message
      with a truthy `sid`; a missing or empty sid and any exception give `false`. */
  function SendSms(response: SmsResponse): (sent: bool)
    ensures sent <==> response.SmsReturned? && response.sid.Some? && |response.sid.value| > 0
  {
    match response
    case SmsReturned(sid) => Truthy(sid)
    case SmsRaised => false
  }
}
