/**
 * `POST /api/bookings`: create one booking.
 *
 * The handler resolves the session to a user id (an absent or bad token
 * makes the booking anonymous rather than rejecting it), reads the body,
 * checks it in a fixed order (missing fields, then ticket format, then
 * total), inserts one row and maps the errors it catches to 409 or 500.
 */
module BookingsRoute {
  import opened Wrappers
  import opened Js
  import opened Http
  import opened Auth
  import opened BookingTable

  /** The parsing the handler leaves to the runtime. */
  datatype Runtime = Runtime(
    /** `JSON.parse`, None where it throws */
    jsonParse: string -> Option<Value>,
    /** `parseFloat`, read as pence; None for NaN */
    parseFloat: string -> Option<int>,
    /** `new Date(selectedDate)`, as a day number */
    newDate: Value -> int)

  /** `const { selectedDate, tickets, total, paymentInfo, email } = body`. */
  datatype BookingBody = BookingBody(selectedDate: Value, tickets: Value, total: Value, paymentInfo: Value, email: Value)

  datatype Rejection = MissingFields | InvalidTicketFormat | InvalidTotalAmount

  const InvalidTicketFormatText: string := "Invalid ticket format"
  const InvalidTotalAmountText: string := "Invalid total amount"
  const DuplicateBookingText: string := "A booking already exists for this email and date"
  const CreateFailedText: string := "Failed to create booking"
  const UniqueConstraintName: string := "unique_booking"

  function RejectionText(r: Rejection): string
  {
    match r
    case MissingFields => MissingFieldsText
    case InvalidTicketFormat => InvalidTicketFormatText
    case InvalidTotalAmount => InvalidTotalAmountText
  }

  /** The user a booking is made for: the token's user when a non-empty token verifies, otherwise nobody. */
  function ResolveUserId(cookies: map<string, Cookie>, crypto: Crypto): (userId: Option<string>)
    ensures userId.Some? <==> HasToken(cookies) && VerifyToken(crypto, AuthToken(cookies).value).Some?
    ensures userId.Some? ==> userId.value == VerifyToken(crypto, AuthToken(cookies).value).value.userId
  {
    var token := AuthToken(cookies);
    if token.Some? && token.value != "" then
      match VerifyToken(crypto, token.value)
      case Some(payload) => Some(payload.userId)
      case None => None
    else None
  }

  /** Destructuring the body: only null and undefined throw; any other value yields its five properties. */
  function Destructure(body: Value): (r: Option<BookingBody>)
    ensures r.None? <==> body.Null? || body.Undefined?
  {
    if body.Null? || body.Undefined? then None
    else Some(BookingBody(OptGet(body, "selectedDate"), OptGet(body, "tickets"), OptGet(body, "total"),
                          OptGet(body, "paymentInfo"), OptGet(body, "email")))
  }

  /** The guard of line 22: a falsy field, where a total of 0 counts as missing and a negative one does not. */
  predicate AnyMissing(b: BookingBody)
    ensures b.total == Num(0) || b.email == Str("") || b.selectedDate == Undefined ==> AnyMissing(b)
    ensures !AnyMissing(b) ==> b.total.Num? ==> b.total.n != 0
  {
    !Truthy(b.selectedDate) || !Truthy(b.tickets) || !Truthy(b.total)
    || !Truthy(OptGet(b.paymentInfo, "cardLastFour")) || !Truthy(b.email)
  }

  /** A string `tickets` is parsed; any other value is kept as it is. */
  function ParsedTickets(tickets: Value, rt: Runtime): (r: Option<Value>)
    ensures !tickets.Str? ==> r == Some(tickets)
    ensures tickets.Str? ==> r == rt.jsonParse(tickets.s)
  {
    if tickets.Str? then rt.jsonParse(tickets.s) else Some(tickets)
  }

  /** A string total is read by `parseFloat`, a number is kept; anything else is taken as NaN. */
  function ParsedTotal(total: Value, rt: Runtime): (r: Option<int>)
    ensures total.Num? ==> r == Some(total.n)
    ensures total.Str? ==> r == rt.parseFloat(total.s)
    ensures !total.Num? && !total.Str? ==> r == None
  {
    match total
    case Str(s) => rt.parseFloat(s)
    case Num(n) => Some(n)
    case _ => None
  }

  /**
   * The validation ladder. Each rejection is reported exactly when every
   * earlier check passed and its own failed; nothing else (the date, the
   * sign of the total) is checked.
   */
  function Validate(b: BookingBody, userId: Option<string>, rt: Runtime): (r: Result<BookingData, Rejection>)
    ensures r == Err(MissingFields) <==> AnyMissing(b)
    ensures r == Err(InvalidTicketFormat) <==> !AnyMissing(b) && ParsedTickets(b.tickets, rt).None?
    ensures r == Err(InvalidTotalAmount) <==>
      !AnyMissing(b) && ParsedTickets(b.tickets, rt).Some? && ParsedTotal(b.total, rt).None?
    ensures r.Ok? ==>
      r.value.visitDate == rt.newDate(b.selectedDate)
      && Some(r.value.ticketDetails) == ParsedTickets(b.tickets, rt)
      && Some(r.value.totalAmount) == ParsedTotal(b.total, rt)
      && r.value.cardLastFour == OptGet(b.paymentInfo, "cardLastFour")
      && r.value.email == b.email
      && r.value.userId == userId
  {
    if AnyMissing(b) then Err(MissingFields)
    else match ParsedTickets(b.tickets, rt)
      case None => Err(InvalidTicketFormat)
      case Some(tickets) =>
        match ParsedTotal(b.total, rt)
        case None => Err(InvalidTotalAmount)
        case Some(total) =>
          Ok(BookingData(rt.newDate(b.selectedDate), tickets, total,
                         OptGet(b.paymentInfo, "cardLastFour"), b.email, userId))
  }

  /** Conversely, a body that passes the three checks is accepted, with every field taken from it. */
  lemma AcceptedWhenChecksPass(b: BookingBody, userId: Option<string>, rt: Runtime)
    requires !AnyMissing(b) && ParsedTickets(b.tickets, rt).Some? && ParsedTotal(b.total, rt).Some?
    ensures Validate(b, userId, rt)
         == Ok(BookingData(rt.newDate(b.selectedDate), ParsedTickets(b.tickets, rt).value, ParsedTotal(b.total, rt).value,
                           OptGet(b.paymentInfo, "cardLastFour"), b.email, userId))
  {
  }

  /** The catch block: a message naming `unique_booking` is a conflict, anything else a 500 with its message. */
  function CatchReply(e: Exception): (reply: Response<Booking>)
    ensures reply.Failure?
    ensures reply.status == 409 <==> e.Error? && Includes(e.message, UniqueConstraintName)
    ensures reply.status != 409 ==> reply.status == 500
    ensures reply.status == 409 ==> reply.error == DuplicateBookingText
    ensures reply.status == 500 && e.Error? ==> reply.error == e.message
    ensures e.NonError? ==> reply.error == CreateFailedText
  {
    match e
    case Error(m) =>
      if Includes(m, UniqueConstraintName) then Failure(409, DuplicateBookingText) else Failure(500, m)
    case NonError => Failure(500, CreateFailedText)
  }

  datatype Outcome = Outcome(reply: Response<Booking>, rows: seq<Booking>)

  /**
   * The handler once the user is resolved. `body` is what `request.json()`
   * gave (an exception when the body is not JSON); `fault` is a failure of
   * the database itself.
   */
  function Process(rows: seq<Booking>, userId: Option<string>, body: Result<Value, Exception>,
                   rt: Runtime, fault: Option<Exception>): (o: Outcome)
    ensures o.reply.Failure? ==> o.rows == rows
    ensures o.reply.Success? ==>
      o.reply.status == 200 && o.rows == rows + [o.reply.data]
      && o.reply.data.id == |rows| && o.reply.data.userId == userId
    ensures o.reply.Success? ==>
      body.Ok? && Destructure(body.value).Some? && Validate(Destructure(body.value).value, userId, rt).Ok?
      && o.reply.data == RowOf(|rows|, Validate(Destructure(body.value).value, userId, rt).value)
    ensures o.reply.status in {200, 400, 409, 500}
    ensures o.reply.status == 400 ==> o.reply.error in {MissingFieldsText, InvalidTicketFormatText, InvalidTotalAmountText}
    ensures body.Err? ==> o == Outcome(CatchReply(body.error), rows)
    ensures body.Ok? && Destructure(body.value).None? ==> o == Outcome(CatchReply(Error(TypeErrorMessage)), rows)
    ensures body.Ok? && Destructure(body.value).Some? && Validate(Destructure(body.value).value, userId, rt).Err? ==>
      o == Outcome(Failure(400, RejectionText(Validate(Destructure(body.value).value, userId, rt).error)), rows)
    ensures (body.Ok? && Destructure(body.value).Some? && Validate(Destructure(body.value).value, userId, rt).Ok?
             && fault.Some?) ==> o == Outcome(CatchReply(fault.value), rows)
  {
    match body
    case Err(e) => Outcome(CatchReply(e), rows)
    case Ok(v) =>
      match Destructure(v)
      case None => Outcome(CatchReply(Error(TypeErrorMessage)), rows)
      case Some(b) =>
        match Validate(b, userId, rt)
        case Err(rejection) => Outcome(Failure(400, RejectionText(rejection)), rows)
        case Ok(d) =>
          match CreateResult(rows, d, fault)
          case Ok(booking) => Outcome(Success(200, booking), rows + [booking])
          case Err(e) => Outcome(CatchReply(e), rows)
  }

  /** A body that validates, for a free slot, with the database working, is stored as the next row. */
  lemma ValidBookingStored(rows: seq<Booking>, userId: Option<string>, v: Value, rt: Runtime, d: BookingData)
    requires Destructure(v).Some? && Validate(Destructure(v).value, userId, rt) == Ok(d)
    requires !SlotTaken(rows, d)
    ensures Process(rows, userId, Ok(v), rt, None) == Outcome(Success(200, RowOf(|rows|, d)), rows + [RowOf(|rows|, d)])
  {
  }

  /**
   * The whole handler: the session only decides the owner of the row, and
   * without a usable token it is the anonymous case.
   */
  function PostBookingSpec(rows: seq<Booking>, cookies: map<string, Cookie>, crypto: Crypto,
                           body: Result<Value, Exception>, rt: Runtime, fault: Option<Exception>): (o: Outcome)
    ensures ResolveUserId(cookies, crypto).None? ==> o == Process(rows, None, body, rt, fault)
    ensures o.reply.status == Process(rows, None, body, rt, fault).reply.status
    ensures o.reply.Success? ==> o.reply.data.userId == ResolveUserId(cookies, crypto)
  {
    SessionNeverRejects(rows, ResolveUserId(cookies, crypto), None, body, rt, fault);
    Process(rows, ResolveUserId(cookies, crypto), body, rt, fault)
  }

  method PostBooking(store: BookingStore, cookies: map<string, Cookie>, crypto: Crypto,
                     body: Result<Value, Exception>, rt: Runtime, fault: Option<Exception>)
    returns (reply: Response<Booking>)
    requires store.Valid()
    modifies store
    ensures store.Valid()
    ensures Outcome(reply, store.rows) == PostBookingSpec(old(store.rows), cookies, crypto, body, rt, fault)
  {
    var token := AuthToken(cookies);
    var authenticatedUserId: Option<string> := None;
    if token.Some? && token.value != "" {
      var payload := VerifyToken(crypto, token.value);
      if payload.Some? {
        authenticatedUserId := Some(payload.value.userId);
      }
    }
    assert authenticatedUserId == ResolveUserId(cookies, crypto);

    if body.Err? {
      return CatchReply(body.error);
    }
    var fields := Destructure(body.value);
    if fields.None? {
      return CatchReply(Error(TypeErrorMessage));
    }
    var checked := Validate(fields.value, authenticatedUserId, rt);
    if checked.Err? {
      return Failure(400, RejectionText(checked.error));
    }
    var created := store.Create(checked.value, fault);
    if created.Err? {
      return CatchReply(created.error);
    }
    reply := Success(200, created.value);
  }

  // ----- Properties of the handler -----

  /** The session never decides the status: with any two resolved users, the handler answers alike and stores alike. */
  lemma SessionNeverRejects(rows: seq<Booking>, u1: Option<string>, u2: Option<string>,
                                               body: Result<Value, Exception>, rt: Runtime, fault: Option<Exception>)
    ensures Process(rows, u1, body, rt, fault).reply.status == Process(rows, u2, body, rt, fault).reply.status
    ensures |Process(rows, u1, body, rt, fault).rows| == |Process(rows, u2, body, rt, fault).rows|
  {
    if body.Ok? && Destructure(body.value).Some? {
      var b := Destructure(body.value).value;
      var r1, r2 := Validate(b, u1, rt), Validate(b, u2, rt);
      assert r1.Err? <==> r2.Err?;
      if r1.Ok? {
        assert r1.value.email == r2.value.email && r1.value.visitDate == r2.value.visitDate;
        assert SlotTaken(rows, r1.value) <==> SlotTaken(rows, r2.value);
      }
    }
  }

  /** Without a usable token, absent, empty or failing verification, the booking is still processed, as an anonymous one. */
  lemma NoTokenMeansAnonymous(cookies: map<string, Cookie>, crypto: Crypto)
    requires !HasToken(cookies) || VerifyToken(crypto, AuthToken(cookies).value).None?
    ensures ResolveUserId(cookies, crypto) == None
  {
  }

  /** A stored booking belongs to the user named by the verified token. */
  lemma StoredRowOwnedByTokenUser(rows: seq<Booking>, cookies: map<string, Cookie>, crypto: Crypto,
                                  body: Result<Value, Exception>, rt: Runtime, fault: Option<Exception>, claims: Claims)
    requires HasToken(cookies) && VerifyToken(crypto, AuthToken(cookies).value) == Some(claims)
    requires PostBookingSpec(rows, cookies, crypto, body, rt, fault).reply.Success?
    ensures PostBookingSpec(rows, cookies, crypto, body, rt, fault).reply.data.userId == Some(claims.userId)
  {
  }

  /** A missing field, a total of 0 among them, is a 400 whatever the tickets and total look like, and nothing is stored. */
  lemma MissingFieldsRejectedFirst(rows: seq<Booking>, userId: Option<string>, v: Value, rt: Runtime, fault: Option<Exception>)
    requires Destructure(v).Some? && AnyMissing(Destructure(v).value)
    ensures Process(rows, userId, Ok(v), rt, fault) == Outcome(Failure(400, MissingFieldsText), rows)
  {
  }

  lemma ZeroTotalIsMissing(b: BookingBody, userId: Option<string>, rt: Runtime)
    requires b.total == Num(0)
    ensures Validate(b, userId, rt) == Err(MissingFields)
  {
  }

  /** No lower bound: a negative total that passes the other checks is stored as given. */
  lemma NegativeTotalStored(rows: seq<Booking>, userId: Option<string>, v: Value, rt: Runtime, n: int)
    requires n < 0
    requires Destructure(v).Some? && !AnyMissing(Destructure(v).value)
    requires Destructure(v).value.total == Num(n)
    requires ParsedTickets(Destructure(v).value.tickets, rt).Some?
    requires !SlotTaken(rows, Validate(Destructure(v).value, userId, rt).value)
    ensures Process(rows, userId, Ok(v), rt, None).reply.Success?
    ensures Process(rows, userId, Ok(v), rt, None).reply.data.totalAmount == n
  {
  }

  /** The table's unique-violation message names the constraint the catch block looks for. */
  lemma ViolationNamesConstraint()
    ensures Includes(UniqueViolationMessage, UniqueConstraintName)
  {
    var prefix := "Unique constraint failed on the constraint: `";
    assert UniqueViolationMessage == prefix + UniqueConstraintName + "`";
    assert UniqueViolationMessage[|prefix|..|prefix| + |UniqueConstraintName|] == UniqueConstraintName;
    assert OccursAt(UniqueViolationMessage, UniqueConstraintName, |prefix|);
  }

  /** A second booking for a taken email and date is a 409 and leaves the table as it was. */
  lemma DuplicateIsConflict(rows: seq<Booking>, userId: Option<string>, v: Value, rt: Runtime)
    requires Destructure(v).Some?
    requires Validate(Destructure(v).value, userId, rt).Ok?
    requires SlotTaken(rows, Validate(Destructure(v).value, userId, rt).value)
    ensures Process(rows, userId, Ok(v), rt, None) == Outcome(Failure(409, DuplicateBookingText), rows)
  {
    ViolationNamesConstraint();
  }

  /** The insert keeps the table's constraint: whatever is posted, no two rows share an email and a date. */
  lemma PostKeepsSlotsUnique(rows: seq<Booking>, userId: Option<string>, body: Result<Value, Exception>,
                             rt: Runtime, fault: Option<Exception>)
    requires UniqueSlots(rows) && Numbered(rows)
    ensures UniqueSlots(Process(rows, userId, body, rt, fault).rows)
    ensures Numbered(Process(rows, userId, body, rt, fault).rows)
  {
    var o := Process(rows, userId, body, rt, fault);
    if o.reply.Success? {
      var b := Destructure(body.value).value;
      CreateKeepsInvariants(rows, Validate(b, userId, rt).value, fault);
    }
  }
}
