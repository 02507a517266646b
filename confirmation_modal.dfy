/**
 * The booking confirmation dialog. When open, it posts the booking to
 * `/api/bookings` once and keeps the outcome in `saveError`; it then shows
 * either the error or the confirmation with one line per ticket kind bought.
 *
 * The client's own serialisers (`toISOString`, `JSON.stringify`) are
 * parameters. `fetch` is replaced by its result: the status and `error`
 * field of the JSON reply, or the message of what it threw.
 */
module ConfirmationModal {
  import opened Wrappers
  import opened Js
  import opened Http
  import opened EmailService

  /** The booking as the dialog receives it; the total is in pence, the date a day number. */
  datatype ModalBooking = ModalBooking(
    selectedDate: int,
    tickets: seq<(string, int)>,
    total: int,
    cardLastFour: string,
    email: string)

  datatype ClientRuntime = ClientRuntime(
    /** `date.toISOString()` */
    toIsoString: int -> string,
    /** `JSON.stringify(value)` */
    stringify: Value -> string)

  /** The tickets map as a JSON object. */
  function TicketEntries(tickets: seq<(string, int)>): (entries: seq<(string, Value)>)
    ensures |entries| == |tickets|
    ensures forall i :: 0 <= i < |tickets| ==> entries[i] == (tickets[i].0, Num(tickets[i].1))
  {
    if tickets == [] then [] else [(tickets[0].0, Num(tickets[0].1))] + TicketEntries(tickets[1..])
  }

  function TicketsObject(tickets: seq<(string, int)>): Value
  {
    Obj(TicketEntries(tickets))
  }

  /**
   * `bookingData`: the date as ISO text, the tickets JSON-stringified, the
   * total as it is (`parseFloat(total.toFixed(2))` keeps a pence amount),
   * `paymentInfo` and `email` passed through.
   */
  function BookingRequest(d: ModalBooking, rt: ClientRuntime): (body: Value)
    ensures body.Obj? && |body.fields| == 5
  {
    Obj([("selectedDate", Str(rt.toIsoString(d.selectedDate))),
         ("tickets", Str(rt.stringify(TicketsObject(d.tickets)))),
         ("total", Num(d.total)),
         ("paymentInfo", Obj([("cardLastFour", Str(d.cardLastFour))])),
         ("email", Str(d.email))])
  }

  /** The five properties of the request hold the dialog's values. */
  lemma BookingRequestFields(d: ModalBooking, rt: ClientRuntime)
    ensures var f := BookingRequest(d, rt).fields;
      Lookup(f, "selectedDate") == Str(rt.toIsoString(d.selectedDate))
      && Lookup(f, "tickets") == Str(rt.stringify(TicketsObject(d.tickets)))
      && Lookup(f, "total") == Num(d.total)
      && Lookup(f, "paymentInfo") == Obj([("cardLastFour", Str(d.cardLastFour))])
      && Lookup(f, "email") == Str(d.email)
  {
    var f := BookingRequest(d, rt).fields;
    assert "tickets"[0] != "selectedDate"[0];
    assert "total"[0] != "selectedDate"[0] && "total"[1] != "tickets"[1];
    assert "paymentInfo"[0] != "selectedDate"[0] && "paymentInfo"[0] != "tickets"[0] && "paymentInfo"[0] != "total"[0];
    assert "email"[0] != "selectedDate"[0] && "email"[0] != "tickets"[0]
        && "email"[0] != "total"[0] && "email"[0] != "paymentInfo"[0];
    LookupFirstMatch(f, "selectedDate", 0);
    LookupFirstMatch(f, "tickets", 1);
    LookupFirstMatch(f, "total", 2);
    LookupFirstMatch(f, "paymentInfo", 3);
    LookupFirstMatch(f, "email", 4);
  }

  /** What `saveBooking` learns from the request. */
  datatype FetchResult = Received(status: int, error: Option<string>) | Threw(message: string)

  /** The reply of a handler as the browser receives it. */
  function ReceivedFrom<T>(reply: Response<T>): (f: FetchResult)
    ensures f.Received? && f.status == reply.status
    ensures f.error.Some? <==> reply.Failure?
    ensures reply.Failure? ==> f.error == Some(reply.error)
  {
    match reply
    case Success(status, _) => Received(status, None)
    case Failure(status, error) => Received(status, Some(error))
  }

  const DuplicateCode: string := "DUPLICATE_BOOKING"
  const DuplicateWarning: string := "You already have a booking for this date. Please choose a different date."
  const SaveFailedText: string := "Failed to save booking"

  /**
   * `saveError` after the request: cleared when the reply is ok; for an
   * error reply the fixed warning when its code is DUPLICATE_BOOKING, else
   * its own non-empty text, else a fixed fallback; the message of anything
   * thrown along the way.
   */
  function SaveErrorAfter(f: FetchResult): (e: Option<string>)
    ensures f.Received? && IsOk(f.status) ==> e.None?
    ensures f.Received? && !IsOk(f.status) ==> e.Some? && e.value != ""
    ensures f.Received? && !IsOk(f.status) && f.error == Some(DuplicateCode) ==> e == Some(DuplicateWarning)
    ensures f.Received? && !IsOk(f.status) && f.error != Some(DuplicateCode) ==>
      e == Some(if f.error.Some? && f.error.value != "" then f.error.value else SaveFailedText)
    ensures f.Threw? ==> e == Some(f.message)
  {
    match f
    case Threw(message) => Some(message)
    case Received(status, error) =>
      if IsOk(status) then None
      else if error == Some(DuplicateCode) then Some(DuplicateWarning)
      else if error.Some? && error.value != "" then Some(error.value)
      else Some(SaveFailedText)
  }

  /** The ticket lines the dialog renders: the quantities above zero, in entry order, as the email writes them. */
  function ModalTicketLines(tickets: seq<(string, int)>): (lines: seq<string>)
    ensures |lines| <= |tickets|
  {
    if tickets == [] then []
    else
      (if tickets[0].1 > 0 then [TicketLine(tickets[0].0, tickets[0].1)] else [])
      + ModalTicketLines(tickets[1..])
  }

  /** One ticket kind gives one line when its quantity is above zero, and none otherwise. */
  lemma ModalTicketLinesSingle(kind: string, quantity: int)
    ensures ModalTicketLines([(kind, quantity)]) == if quantity > 0 then [TicketLine(kind, quantity)] else []
  {
    assert [(kind, quantity)][1..] == [];
  }

  /** Lines keep the order of the ticket kinds: rendering distributes over concatenation. */
  lemma {:induction false} ModalTicketLinesAppend(a: seq<(string, int)>, b: seq<(string, int)>)
    ensures ModalTicketLines(a + b) == ModalTicketLines(a) + ModalTicketLines(b)
  {
    if a != [] {
      assert (a + b)[1..] == a[1..] + b;
      ModalTicketLinesAppend(a[1..], b);
    } else {
      assert a + b == b;
    }
  }

  /** The dialog and the confirmation email list the same ticket lines. */
  lemma {:induction false} ModalLinesAreEmailLines(tickets: seq<(string, int)>)
    ensures TicketLines(TicketEntries(tickets)) == ModalTicketLines(tickets)
    ensures TicketsList(TicketsObject(tickets)) == Ok(JoinLines(ModalTicketLines(tickets)))
  {
    if tickets != [] {
      var entries := TicketEntries(tickets);
      assert entries[1..] == TicketEntries(tickets[1..]);
      ModalLinesAreEmailLines(tickets[1..]);
    }
  }

  datatype View =
    | Hidden
    | ErrorView(message: string)
    | Confirmed(visitDate: int, ticketLines: seq<string>, total: int, cardLastFour: string, email: string)

  class ModalState {
    const isOpen: bool
    const details: ModalBooking
    var saveError: Option<string>

    constructor (open: bool, booking: ModalBooking)
      ensures isOpen == open && details == booking && saveError == None
    {
      isOpen := open;
      details := booking;
      saveError := None;
    }

    /** The effect's `saveBooking`; it runs only while the dialog is open. */
    method SaveBooking(f: FetchResult)
      modifies this`saveError
      ensures saveError == if isOpen then SaveErrorAfter(f) else old(saveError)
    {
      if isOpen {
        match f {
          case Threw(message) =>
            saveError := Some(message);
          case Received(status, error) =>
            if !IsOk(status) {
              if error == Some(DuplicateCode) {
                saveError := Some(DuplicateWarning);
              } else if error.Some? && error.value != "" {
                saveError := Some(error.value);
              } else {
                saveError := Some(SaveFailedText);
              }
            } else {
              saveError := None;
            }
        }
      }
    }

    /** Nothing when closed; the error view while `saveError` is a non-empty text; the confirmation otherwise. */
    function Render(): (v: View)
      reads this
      ensures !isOpen <==> v == Hidden
      ensures isOpen && saveError.Some? && saveError.value != "" <==> v.ErrorView?
      ensures v.ErrorView? ==> Some(v.message) == saveError
      ensures v.Confirmed? ==> v.ticketLines == ModalTicketLines(details.tickets) && v.email == details.email
    {
      if !isOpen then Hidden
      else if saveError.Some? && saveError.value != "" then ErrorView(saveError.value)
      else Confirmed(details.selectedDate, ModalTicketLines(details.tickets), details.total,
                     details.cardLastFour, details.email)
    }
  }
}
