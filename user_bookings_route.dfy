/**
 * `GET /api/bookings/user`: the signed-in user's bookings.
 *
 * No cookie is a 401 "Not authenticated", a token that does not verify a
 * 401 "Invalid token"; a verified token always gives 200 with the rows it
 * owns, ascending by visit date, even when no such user exists. The handler
 * only reads, so it is a function of the table.
 */
module UserBookingsRoute {
  import opened Wrappers
  import opened Http
  import opened Auth
  import opened BookingTable

  const NotAuthenticatedText: string := "Not authenticated"
  const InvalidTokenText: string := "Invalid token"

  /** The two 401s every authenticated read starts with; None when the token verifies. */
  function AuthFailure(cookies: map<string, Cookie>, crypto: Crypto): (r: Option<(int, string)>)
    ensures !HasToken(cookies) ==> r == Some((401, NotAuthenticatedText))
    ensures HasToken(cookies) ==> (r.None? <==> VerifyToken(crypto, AuthToken(cookies).value).Some?)
    ensures HasToken(cookies) && r.Some? ==> r.value == (401, InvalidTokenText)
    ensures r.None? ==> HasToken(cookies) && VerifyToken(crypto, AuthToken(cookies).value).Some?
  {
    var token := AuthToken(cookies);
    if token.None? || token.value == "" then Some((401, NotAuthenticatedText))
    else if VerifyToken(crypto, token.value).None? then Some((401, InvalidTokenText))
    else None
  }

  /** `fault` is a failure of the database query. */
  function GetUserBookings(cookies: map<string, Cookie>, crypto: Crypto, rows: seq<Booking>,
                           fault: Option<Exception>): (reply: Response<seq<Booking>>)
    ensures reply.status in {200, 401, 500}
    ensures reply.status == 401 <==> AuthFailure(cookies, crypto).Some?
    ensures AuthFailure(cookies, crypto).Some? ==>
      reply == Failure(AuthFailure(cookies, crypto).value.0, AuthFailure(cookies, crypto).value.1)
    ensures AuthFailure(cookies, crypto).None? && fault.Some? ==> reply == Failure(500, InternalErrorText)
    ensures reply.Success? ==>
      AuthFailure(cookies, crypto).None? && reply.status == 200
      && reply.data == BookingsOf(rows, VerifyToken(crypto, AuthToken(cookies).value).value.userId)
    ensures AuthFailure(cookies, crypto).None? && fault.None? ==> reply.Success?
  {
    match AuthFailure(cookies, crypto)
    case Some((status, error)) => Failure(status, error)
    case None =>
      var payload := VerifyToken(crypto, AuthToken(cookies).value).value;
      if fault.Some? then Failure(500, InternalErrorText)
      else Success(200, BookingsOf(rows, payload.userId))
  }

  /** A 200 lists exactly the bookings of the token's user, sorted by date; anonymous rows never appear. */
  lemma ListedExactlyOwned(cookies: map<string, Cookie>, crypto: Crypto, rows: seq<Booking>, claims: Claims)
    requires HasToken(cookies) && VerifyToken(crypto, AuthToken(cookies).value) == Some(claims)
    ensures var reply := GetUserBookings(cookies, crypto, rows, None);
      reply.Success? && SortedByDate(reply.data)
      && (forall b :: b in reply.data <==> b in rows && b.userId == Some(claims.userId))
  {
  }
}
