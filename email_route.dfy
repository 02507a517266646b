/**
 * `POST /api/email/booking-confirmation`: check that the five booking
 * fields are present, lift `paymentInfo.cardLastFour` to the top level and
 * send the confirmation; 200 with the message id, 500 with one fixed text
 * whatever went wrong.
 */
module EmailRoute {
  import opened Wrappers
  import opened Js
  import opened Http
  import opened EmailService

  const MissingDetailsText: string := "Missing required booking details"
  const SendFailedText: string := "Failed to send booking confirmation email"

  /** The reply, the details handed to the sender (if it was called) and the message it sent. */
  datatype ConfirmationOutcome = ConfirmationOutcome(
    reply: Response<string>,
    forwarded: Option<seq<(string, Value)>>,
    sent: Option<Mail>)

  /**
   * The guard of line 9. It asks only that `paymentInfo` be truthy, not that
   * it carry a `cardLastFour`; a total of 0 counts as missing.
   */
  predicate MissingDetails(body: Value)
    ensures body.Obj? && Lookup(body.fields, "total") == Num(0) ==> MissingDetails(body)
    ensures (body.Obj? && Truthy(Lookup(body.fields, "email")) && Truthy(Lookup(body.fields, "selectedDate"))
             && Truthy(Lookup(body.fields, "tickets")) && Truthy(Lookup(body.fields, "total"))
             && Lookup(body.fields, "paymentInfo") == Obj([])) ==> !MissingDetails(body)
  {
    !Truthy(OptGet(body, "email")) || !Truthy(OptGet(body, "selectedDate")) || !Truthy(OptGet(body, "tickets"))
    || !Truthy(OptGet(body, "total")) || !Truthy(OptGet(body, "paymentInfo"))
  }

  /** `{ ...bookingDetails, cardLastFour: bookingDetails.paymentInfo.cardLastFour }`. */
  function Forwarded(fields: seq<(string, Value)>): (details: seq<(string, Value)>)
    ensures Lookup(details, "cardLastFour") == OptGet(Lookup(fields, "paymentInfo"), "cardLastFour")
    ensures forall k :: k != "cardLastFour" ==> Lookup(details, k) == Lookup(fields, k)
    ensures Keys(details) == Keys(fields) + {"cardLastFour"}
  {
    With(fields, "cardLastFour", OptGet(Lookup(fields, "paymentInfo"), "cardLastFour"))
  }

  /** `body` is what `request.json()` gave; `env` and `transport` are the sender's. */
  function PostConfirmation(body: Result<Value, Exception>, env: SmtpEnv, transport: Transport): (o: ConfirmationOutcome)
    ensures o.reply.status in {200, 400, 500}
    ensures o.reply.status == 400 <==> body.Ok? && !body.value.Null? && !body.value.Undefined? && MissingDetails(body.value)
    ensures o.reply.status == 400 ==> o.reply.Failure? && o.reply.error == MissingDetailsText
    ensures o.reply.status == 500 ==> o.reply.Failure? && o.reply.error == SendFailedText
    ensures o.forwarded.Some? <==> body.Ok? && body.value.Obj? && !MissingDetails(body.value)
    ensures o.forwarded.Some? ==>
      o.forwarded.value == Forwarded(body.value.fields)
      && o.sent == SendBookingConfirmation(env, o.forwarded.value, transport).sent
      && (o.reply.status == 200 <==> SendBookingConfirmation(env, o.forwarded.value, transport).result.Ok?)
    ensures o.forwarded.None? ==> o.sent.None?
    ensures o.reply.Success? ==>
      o.reply.status == 200 && o.forwarded.Some?
      && SendBookingConfirmation(env, o.forwarded.value, transport).result == Ok(o.reply.data)
  {
    if body.Err? || body.value.Null? || body.value.Undefined? then
      ConfirmationOutcome(Failure(500, SendFailedText), None, None)
    else if MissingDetails(body.value) then
      ConfirmationOutcome(Failure(400, MissingDetailsText), None, None)
    else
      // every value other than an object lacks the five fields
      assert body.value.Obj?;
      var details := Forwarded(body.value.fields);
      var out := SendBookingConfirmation(env, details, transport);
      match out.result
      case Ok(messageId) => ConfirmationOutcome(Success(200, messageId), Some(details), out.sent)
      case Err(_) => ConfirmationOutcome(Failure(500, SendFailedText), Some(details), out.sent)
  }

  /** A present `paymentInfo` without a `cardLastFour` passes the guard; the lifted field is then undefined. */
  lemma CardLastFourNotRequired(fields: seq<(string, Value)>, env: SmtpEnv, transport: Transport)
    requires !MissingDetails(Obj(fields))
    requires Lookup(fields, "paymentInfo") == Obj([])
    ensures PostConfirmation(Ok(Obj(fields)), env, transport).forwarded.Some?
    ensures Lookup(PostConfirmation(Ok(Obj(fields)), env, transport).forwarded.value, "cardLastFour") == Undefined
  {
  }

  /** Unconfigured credentials are a 500 with the route's own text, and no mail goes out. */
  lemma UnconfiguredIsFixed500(body: Result<Value, Exception>, env: SmtpEnv, transport: Transport)
    requires !Configured(env)
    requires body.Ok? && body.value.Obj? && !MissingDetails(body.value)
    ensures PostConfirmation(body, env, transport) ==
      ConfirmationOutcome(Failure(500, SendFailedText), Some(Forwarded(body.value.fields)), None)
  {
  }
}
