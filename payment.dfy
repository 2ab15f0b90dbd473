/** The payment side of the bot: the STK push request it sends to the
    PayHero gateway and the one reply it picks from the gateway's answer. */
module Payment {
  import opened Wrappers

  const ChannelId := 852
  const Provider := "m-pesa"
  const ExternalReference := "INV-009"
  const CallbackUrl := "https://softcash.co.ke/billing/callbackurl.php"

  /** The JSON body of a payment request. */
  datatype Payload = Payload(
    amount: int,
    phoneNumber: string,
    channelId: int,
    provider: string,
    externalReference: string,
    callbackUrl: string)

  /** The fields every payment request carries, whatever is being bought. */
  predicate HasFixedFields(p: Payload) {
    p.channelId == ChannelId && p.provider == Provider &&
    p.externalReference == ExternalReference && p.callbackUrl == CallbackUrl
  }

  /** The payload of a request to charge `amount` to `phoneNumber`. */
  function StkPushPayload(phoneNumber: string, amount: int): (p: Payload)
    ensures HasFixedFields(p)
    ensures p.amount == amount && p.phoneNumber == phoneNumber
  {
    Payload(amount, phoneNumber, ChannelId, Provider, ExternalReference, CallbackUrl)
  }

  /** A payload is the request for (phone, amount) exactly when it carries
      that phone and amount and the fixed fields: no other request is ever
      sent for them. */
  lemma PayloadCharacterised(phoneNumber: string, amount: int, p: Payload)
    ensures StkPushPayload(phoneNumber, amount) == p <==>
      HasFixedFields(p) && p.amount == amount && p.phoneNumber == phoneNumber
  {
  }

  /** What `response.json()` makes of the gateway's reply: no JSON at all
      (it raises), JSON that is not an object (so `.get` raises), or an object
      whose `success` field is truthy or not and whose `status` and `message`
      fields are present or absent. */
  datatype Body =
    | Unparseable
    | NotAnObject
    | Object(success: bool, status: Option<string>, message: Option<string>)

  /** The outcome of posting the request: `requests.post` raised, or the
      gateway answered with a status code and a body. */
  datatype Exchange =
    | PostRaised
    | Answered(statusCode: int, body: Body)

  /** The one user-facing outcome of a payment attempt. */
  datatype Outcome =
    | PinPrompt
    | PaymentSucceeded
    | StatusNotice(status: Option<string>)
    | PaymentFailed(message: Option<string>)
    | InitiateFailed
    | ErrorOccurred

  /** The gateway answered 200 or 201 with a JSON object. */
  predicate Accepted(x: Exchange) {
    x.Answered? && x.statusCode in {200, 201} && x.body.Object?
  }

  /** The if/elif chain of initiate_stk_push, inside its try block. */
  function Classify(x: Exchange): (o: Outcome)
    ensures o == ErrorOccurred <==>
      x.PostRaised? || x.body.Unparseable? || (x.statusCode in {200, 201} && x.body.NotAnObject?)
    ensures o == InitiateFailed <==>
      x.Answered? && !x.body.Unparseable? && x.statusCode !in {200, 201}
    ensures o.PaymentFailed? <==> Accepted(x) && !x.body.success
    ensures o.PaymentFailed? ==> o.message == x.body.message
    ensures o == PinPrompt <==> Accepted(x) && x.body.success && x.body.status == Some("QUEUED")
    ensures o == PaymentSucceeded <==> Accepted(x) && x.body.success && x.body.status == Some("SUCCESS")
    ensures o.StatusNotice? <==>
      Accepted(x) && x.body.success && x.body.status != Some("QUEUED") && x.body.status != Some("SUCCESS")
    ensures o.StatusNotice? ==> o.status == x.body.status
  {
    match x
    case PostRaised => ErrorOccurred
    case Answered(code, body) =>
      if body.Unparseable? then ErrorOccurred
      else if code == 200 || code == 201 then
        match body
        case NotAnObject => ErrorOccurred
        case Object(success, status, message) =>
          if !success then PaymentFailed(message)
          else if status == Some("QUEUED") then PinPrompt
          else if status == Some("SUCCESS") then PaymentSucceeded
          else StatusNotice(status)
      else InitiateFailed
  }

  /** How an f-string renders a value `.get` may have found missing. */
  function Rendered(v: Option<string>): (r: string)
    ensures v.Some? ==> r == v.value
    ensures v.None? ==> r == "None"
  {
    match v
    case None => "None"
    case Some(s) => s
  }

  /** The two outcomes are of the same kind, whatever status or message
      they carry. */
  predicate SameKind(o1: Outcome, o2: Outcome) {
    (o1.PinPrompt? && o2.PinPrompt?) || (o1.PaymentSucceeded? && o2.PaymentSucceeded?) ||
    (o1.StatusNotice? && o2.StatusNotice?) || (o1.PaymentFailed? && o2.PaymentFailed?) ||
    (o1.InitiateFailed? && o2.InitiateFailed?) || (o1.ErrorOccurred? && o2.ErrorOccurred?)
  }

  /** The first ten characters of each kind of reply. */
  function Opening(o: Outcome): (w: string)
    ensures |w| == 10
  {
    match o
    case PinPrompt => "Please ent"
    case PaymentSucceeded => "Payment su"
    case StatusNotice(_) => "Payment st"
    case PaymentFailed(_) => "Payment fa"
    case InitiateFailed => "Failed to "
    case ErrorOccurred => "An error o"
  }

  /** How the status and failure replies begin and end, around the field
      they quote. */
  const StatusOpening := "Payment st" + "atus: "
  const FailedOpening := "Payment fa" + "iled: "
  const RetryClosing := ". Please try again."

  /** The reply the bot sends for each outcome. Each text is written as its
      opening followed by the rest, which is the same string and keeps the
      proofs about the openings small. Every reply starts with its kind's
      opening, and the status and failure replies quote the gateway's field
      right after "Payment status: " or "Payment failed: ". */
  function Message(o: Outcome): (m: string)
    ensures |m| >= 10 && m[..10] == Opening(o)
    ensures o.StatusNotice? ==>
      var v := Rendered(o.status);
      m == StatusOpening + v + RetryClosing && m[|StatusOpening|..|StatusOpening| + |v|] == v
    ensures o.PaymentFailed? ==>
      var v := Rendered(o.message);
      m == FailedOpening + v + RetryClosing && m[|FailedOpening|..|FailedOpening| + |v|] == v
  {
    match o
    case PinPrompt => "Please ent" + "er your M-Pesa PIN to proceed with payment.✅ For help, click here @emmkash."
    case PaymentSucceeded => "Payment su" + "ccessful! Thank you for your purchase. Enjoy your data! 🎉"
    case StatusNotice(status) => StatusOpening + Rendered(status) + RetryClosing
    case PaymentFailed(message) => FailedOpening + Rendered(message) + RetryClosing
    case InitiateFailed => "Failed to " + "initiate payment. Please try again later."
    case ErrorOccurred => "An error o" + "ccurred while processing your request. Please try again later."
  }

  /** The openings of two outcomes agree exactly when they are of one kind. */
  lemma OpeningIdentifiesKind(o1: Outcome, o2: Outcome)
    ensures Opening(o1) == Opening(o2) <==> SameKind(o1, o2)
  {
  }

  /** The user can tell every kind of outcome from every other by the reply
      alone. */
  lemma MessageTellsKindsApart(o1: Outcome, o2: Outcome)
    requires !SameKind(o1, o2)
    ensures Message(o1) != Message(o2)
  {
    OpeningIdentifiesKind(o1, o2);
  }
}
