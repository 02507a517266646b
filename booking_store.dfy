/**
 * The bookings table as the route handlers see it through the query layer:
 * `booking.create`, with its unique constraint `unique_booking`, and
 * `booking.findMany` filtered by owner and ordered by visit date.
 *
 * The table's schema is not part of this model. The constraint's columns are
 * taken to be the contact email and the visit date, the pair the handler's
 * conflict message names. Row ids number the rows in insertion order.
 */
module BookingTable {
  import opened Wrappers
  import opened Js
  import opened Http

  /** What `booking.create` is given. A visit date is a day number; the fields the handler does not inspect stay JSON values. */
  datatype BookingData = BookingData(
    visitDate: int,
    ticketDetails: Value,
    totalAmount: int,
    cardLastFour: Value,
    email: Value,
    userId: Option<string>)

  datatype Booking = Booking(
    id: nat,
    visitDate: int,
    ticketDetails: Value,
    totalAmount: int,
    cardLastFour: Value,
    email: Value,
    userId: Option<string>)

  /** The message of the error a violation of `unique_booking` raises; it names the constraint. */
  const UniqueViolationMessage: string := "Unique constraint failed on the constraint: `unique_booking`"

  function RowOf(id: nat, d: BookingData): (b: Booking)
    ensures b.id == id && b.visitDate == d.visitDate && b.ticketDetails == d.ticketDetails
    ensures b.totalAmount == d.totalAmount && b.cardLastFour == d.cardLastFour
    ensures b.email == d.email && b.userId == d.userId
  {
    Booking(id, d.visitDate, d.ticketDetails, d.totalAmount, d.cardLastFour, d.email, d.userId)
  }

  /** Two rows with the same email and visit date would break `unique_booking`. */
  predicate SameSlot(a: Booking, b: Booking)
  {
    a.email == b.email && a.visitDate == b.visitDate
  }

  predicate SlotTaken(rows: seq<Booking>, d: BookingData)
  {
    exists i :: 0 <= i < |rows| && rows[i].email == d.email && rows[i].visitDate == d.visitDate
  }

  /** The constraint the table enforces: no two rows share an email and a visit date. */
  predicate UniqueSlots(rows: seq<Booking>)
  {
    forall i, j :: 0 <= i < j < |rows| ==> !SameSlot(rows[i], rows[j])
  }

  /** Ids follow insertion order, so they are distinct. */
  predicate Numbered(rows: seq<Booking>)
  {
    forall i :: 0 <= i < |rows| ==> rows[i].id == i
  }

  /**
   * The outcome of `booking.create(data)`: a failure of the database itself
   * (`fault`), a unique-constraint violation, or the new row.
   */
  function CreateResult(rows: seq<Booking>, d: BookingData, fault: Option<Exception>): (r: Result<Booking, Exception>)
    ensures r.Ok? <==> fault.None? && !SlotTaken(rows, d)
    ensures r.Ok? ==> r.value == RowOf(|rows|, d)
    ensures fault.None? && SlotTaken(rows, d) ==> r == Err(Error(UniqueViolationMessage))
    ensures fault.Some? ==> r == Err(fault.value)
  {
    if fault.Some? then Err(fault.value)
    else if SlotTaken(rows, d) then Err(Error(UniqueViolationMessage))
    else Ok(RowOf(|rows|, d))
  }

  /** A successful insert keeps the table's invariants. */
  lemma CreateKeepsInvariants(rows: seq<Booking>, d: BookingData, fault: Option<Exception>)
    requires UniqueSlots(rows) && Numbered(rows)
    requires CreateResult(rows, d, fault).Ok?
    ensures UniqueSlots(rows + [CreateResult(rows, d, fault).value])
    ensures Numbered(rows + [CreateResult(rows, d, fault).value])
  {
    var b := CreateResult(rows, d, fault).value;
    var rows' := rows + [b];
    forall i, j | 0 <= i < j < |rows'| ensures !SameSlot(rows'[i], rows'[j]) {
      if j == |rows| {
        assert rows'[i] == rows[i];
        assert !(rows[i].email == d.email && rows[i].visitDate == d.visitDate);
      }
    }
  }

  class BookingStore {
    var rows: seq<Booking>

    ghost predicate Valid()
      reads this
    {
      UniqueSlots(rows) && Numbered(rows)
    }

    constructor ()
      ensures Valid() && rows == []
    {
      rows := [];
    }

    /** `prisma.booking.create`: one row more on success, the table unchanged on any error. */
    method Create(d: BookingData, fault: Option<Exception>) returns (r: Result<Booking, Exception>)
      requires Valid()
      modifies this
      ensures Valid()
      ensures r == CreateResult(old(rows), d, fault)
      ensures rows == if r.Ok? then old(rows) + [r.value] else old(rows)
    {
      r := CreateResult(rows, d, fault);
      if r.Ok? {
        CreateKeepsInvariants(rows, d, fault);
        rows := rows + [r.value];
      }
    }
  }

  predicate SortedByDate(s: seq<Booking>)
  {
    forall i, j :: 0 <= i < j < |s| ==> s[i].visitDate <= s[j].visitDate
  }

  /** Every row of `s` is dated `d` or later. */
  predicate OnOrAfter(d: int, s: seq<Booking>)
  {
    forall k :: 0 <= k < |s| ==> d <= s[k].visitDate
  }

  /** A permutation of `s` plus `b` keeps a lower bound both share. */
  lemma BoundSurvivesInsert(d: int, b: Booking, s: seq<Booking>, r: seq<Booking>)
    requires d <= b.visitDate && OnOrAfter(d, s)
    requires multiset(r) == multiset(s) + multiset{b}
    ensures OnOrAfter(d, r)
  {
    forall k | 0 <= k < |r| ensures d <= r[k].visitDate {
      assert r[k] in multiset(r);
      if r[k] != b {
        assert r[k] in multiset(s);
        var j :| 0 <= j < |s| && s[j] == r[k];
      }
    }
  }

  /** Places `b` before the first row of `s` dated on or after it. */
  function InsertByDate(b: Booking, s: seq<Booking>): (r: seq<Booking>)
    requires SortedByDate(s)
    ensures SortedByDate(r)
    ensures multiset(r) == multiset(s) + multiset{b}
    ensures |r| == |s| + 1
  {
    if s == [] then [b]
    else if b.visitDate <= s[0].visitDate then [b] + s
    else
      var rest := InsertByDate(b, s[1..]);
      assert multiset(s) == multiset{s[0]} + multiset(s[1..]) by {
        assert s == [s[0]] + s[1..];
      }
      BoundSurvivesInsert(s[0].visitDate, b, s[1..], rest);
      [s[0]] + rest
  }

  /**
   * `orderBy: { visitDate: 'asc' }`. The query leaves the order of rows on the
   * same day open; this model keeps them in table order.
   */
  function SortByDate(s: seq<Booking>): (r: seq<Booking>)
    ensures SortedByDate(r)
    ensures multiset(r) == multiset(s)
    ensures |r| == |s|
  {
    if s == [] then []
    else
      assert s == [s[0]] + s[1..];
      InsertByDate(s[0], SortByDate(s[1..]))
  }

  /** `where: { userId }`: the rows owned by the user, in table order. */
  function OwnedBy(rows: seq<Booking>, userId: string): (r: seq<Booking>)
    ensures forall b :: b in r <==> b in rows && b.userId == Some(userId)
    ensures forall b :: multiset(r)[b] == if b.userId == Some(userId) then multiset(rows)[b] else 0
    ensures |r| <= |rows|
  {
    if rows == [] then []
    else
      assert rows == [rows[0]] + rows[1..];
      if rows[0].userId == Some(userId) then [rows[0]] + OwnedBy(rows[1..], userId)
      else OwnedBy(rows[1..], userId)
  }

  /** The user's bookings as `findMany` returns them: exactly the rows they own, ascending by visit date. */
  function BookingsOf(rows: seq<Booking>, userId: string): (r: seq<Booking>)
    ensures SortedByDate(r)
    ensures forall b :: b in r <==> b in rows && b.userId == Some(userId)
    ensures |r| == |OwnedBy(rows, userId)|
    ensures multiset(r) == multiset(OwnedBy(rows, userId))
    ensures forall b :: multiset(r)[b] == if b.userId == Some(userId) then multiset(rows)[b] else 0
  {
    var r := SortByDate(OwnedBy(rows, userId));
    assert forall b :: b in r <==> b in multiset(r);
    r
  }

  /** A booking made without a session is never listed for any user, whatever its email. */
  lemma AnonymousBookingsNeverListed(rows: seq<Booking>, userId: string, b: Booking)
    requires b in rows && b.userId == None
    ensures b !in BookingsOf(rows, userId)
  {
  }
}
