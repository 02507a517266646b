/**
 * Properties that span more than one handler: a session started by sign-up
 * is recognised by `me`, and the booking the confirmation dialog posts is
 * judged by the bookings route the way the dialog expects, or not.
 */
module Scenarios {
  import opened Wrappers
  import opened Js
  import opened Http
  import opened Auth
  import opened BookingTable
  import opened UserTable
  import opened BookingsRoute
  import opened SignupRoute
  import opened MeRoute
  import opened ConfirmationModal

  /**
   * Sign-up followed by `me` with the cookie it set: the profile of the new
   * user, with no bookings yet when none were made under that id. The
   * signer is assumed to round-trip and to produce a non-empty token.
   */
  lemma SignupThenMe(users: seq<User>, rows: seq<Booking>, crypto: Crypto, body: Result<SignupBody, Exception>,
                     freshId: string, now: int, production: bool,
                     lookupFault: Option<Exception>, createFault: Option<Exception>)
    requires JwtRoundTrips(crypto) && CreateToken(crypto, freshId) != ""
    requires UniqueEmails(users) && UniqueIds(users)
    requires SignupSpec(users, crypto, body, freshId, now, production, lookupFault, createFault).reply.Success?
    ensures var o := SignupSpec(users, crypto, body, freshId, now, production, lookupFault, createFault);
      var jar := map[o.cookie.value.0 := o.cookie.value.1];
      GetMe(jar, crypto, o.users, rows, None)
        == Success(200, Profile(freshId, body.value.fullName, body.value.email, BookingsOf(rows, freshId)))
  {
    var o := SignupSpec(users, crypto, body, freshId, now, production, lookupFault, createFault);
    var jar := map[o.cookie.value.0 := o.cookie.value.1];
    SuccessfulSignup(users, crypto, body, freshId, now, production, lookupFault, createFault);
    SignupKeepsEmailsUnique(users, crypto, body, freshId, now, production, lookupFault, createFault);
    TokenRoundTrip(crypto, freshId);
    var u := o.users[|users|];
    assert u in o.users;
    KnownUserFound(jar, crypto, o.users, rows, u);
  }

  /** The route reads back, field by field, what the dialog put in its request. */
  lemma RequestReadBack(d: ModalBooking, crt: ClientRuntime)
    ensures Destructure(BookingRequest(d, crt))
         == Some(BookingBody(Str(crt.toIsoString(d.selectedDate)), Str(crt.stringify(TicketsObject(d.tickets))),
                             Num(d.total), Obj([("cardLastFour", Str(d.cardLastFour))]), Str(d.email)))
  {
    BookingRequestFields(d, crt);
    var v := BookingRequest(d, crt);
    assert OptGet(v, "selectedDate") == Lookup(v.fields, "selectedDate");
    assert OptGet(v, "tickets") == Lookup(v.fields, "tickets");
    assert OptGet(v, "total") == Lookup(v.fields, "total");
    assert OptGet(v, "paymentInfo") == Lookup(v.fields, "paymentInfo");
    assert OptGet(v, "email") == Lookup(v.fields, "email");
  }

  /** A request built from non-empty fields and a non-zero total has nothing the route counts as missing. */
  lemma FilledRequestComplete(d: ModalBooking, crt: ClientRuntime)
    requires crt.toIsoString(d.selectedDate) != "" && crt.stringify(TicketsObject(d.tickets)) != ""
    requires d.total != 0 && d.cardLastFour != "" && d.email != ""
    ensures Destructure(BookingRequest(d, crt)).Some? && !AnyMissing(Destructure(BookingRequest(d, crt)).value)
  {
    var b := BookingBody(Str(crt.toIsoString(d.selectedDate)), Str(crt.stringify(TicketsObject(d.tickets))),
                         Num(d.total), Obj([("cardLastFour", Str(d.cardLastFour))]), Str(d.email));
    RequestReadBack(d, crt);
    assert Destructure(BookingRequest(d, crt)) == Some(b);
    assert Truthy(b.selectedDate) && Truthy(b.tickets) && Truthy(b.total) && Truthy(b.email);
    assert OptGet(b.paymentInfo, "cardLastFour") == Str(d.cardLastFour);
  }

  /**
   * The dialog's request is accepted by the bookings validation when its
   * fields are non-empty, its total is not 0 and the server's `JSON.parse`
   * reads back what the dialog's `JSON.stringify` wrote; the booking then
   * carries the dialog's tickets, total, card digits and email.
   */
  lemma ModalRequestValidates(d: ModalBooking, crt: ClientRuntime, rt: Runtime, userId: Option<string>)
    requires crt.toIsoString(d.selectedDate) != "" && crt.stringify(TicketsObject(d.tickets)) != ""
    requires d.total != 0 && d.cardLastFour != "" && d.email != ""
    requires rt.jsonParse(crt.stringify(TicketsObject(d.tickets))) == Some(TicketsObject(d.tickets))
    ensures Destructure(BookingRequest(d, crt)).Some?
    ensures Validate(Destructure(BookingRequest(d, crt)).value, userId, rt)
         == Ok(BookingData(rt.newDate(Str(crt.toIsoString(d.selectedDate))), TicketsObject(d.tickets), d.total,
                           Str(d.cardLastFour), Str(d.email), userId))
  {
    FilledRequestComplete(d, crt);
    RequestReadBack(d, crt);
    AcceptedWhenChecksPass(Destructure(BookingRequest(d, crt)).value, userId, rt);
  }

  /** A dialog total of 0 is turned away as missing, and the dialog shows the server's text. */
  lemma ModalZeroTotalRejected(d: ModalBooking, crt: ClientRuntime, rows: seq<Booking>, userId: Option<string>,
                               rt: Runtime, fault: Option<Exception>)
    requires d.total == 0
    ensures var o := Process(rows, userId, Ok(BookingRequest(d, crt)), rt, fault);
      o == Outcome(Failure(400, MissingFieldsText), rows)
      && SaveErrorAfter(ReceivedFrom(o.reply)) == Some(MissingFieldsText)
  {
    RequestReadBack(d, crt);
    var b := Destructure(BookingRequest(d, crt)).value;
    ZeroTotalIsMissing(b, userId, rt);
    MissingFieldsRejectedFirst(rows, userId, BookingRequest(d, crt), rt, fault);
  }

  /**
   * The dialog's special case for the code DUPLICATE_BOOKING is never taken
   * for a conflict: the route answers 409 with a sentence, so the dialog
   * shows that sentence rather than its own warning.
   */
  lemma ConflictShowsServerText(rows: seq<Booking>, userId: Option<string>, body: Result<Value, Exception>,
                                rt: Runtime, fault: Option<Exception>)
    requires Process(rows, userId, body, rt, fault).reply.status == 409
    ensures SaveErrorAfter(ReceivedFrom(Process(rows, userId, body, rt, fault).reply)) == Some(DuplicateBookingText)
    ensures SaveErrorAfter(ReceivedFrom(Process(rows, userId, body, rt, fault).reply)) != Some(DuplicateWarning)
  {
  }

  /** A stored booking clears the dialog's error. */
  lemma StoredBookingClearsError(rows: seq<Booking>, userId: Option<string>, body: Result<Value, Exception>,
                                 rt: Runtime, fault: Option<Exception>)
    requires Process(rows, userId, body, rt, fault).reply.Success?
    ensures SaveErrorAfter(ReceivedFrom(Process(rows, userId, body, rt, fault).reply)) == None
  {
  }
}
