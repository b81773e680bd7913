/** What the application hands to the SMS gateway. The gateway call itself is
    not modelled: a send is only the request record that would be passed to it. */
module Sms {

  /** One call of the gateway: message body, sender identity shown to the
      recipients, and the recipients' numbers. */
  datatype SmsRequest = SmsRequest(body: string, originator: string, recipients: seq<string>)

  /** The fixed sender identity used for broadcasts and for confirmations. */
  const DEFAULT_ORIGINATOR := "MBSender"
}
