/**
 * `GET /api/auth/me`: the signed-in user with their bookings.
 *
 * The same two 401s as the bookings read, then 404 when the token's user
 * is not in the table, then 200 with the id, name, email and bookings (never
 * the password hash). The handler only reads.
 */
module MeRoute {
  import opened Wrappers
  import opened Http
  import opened Auth
  import opened BookingTable
  import opened UserTable
  import opened UserBookingsRoute

  const UserNotFoundText: string := "User not found"

  /** The success body: these four fields and no others. */
  datatype Profile = Profile(id: string, fullName: string, email: string, bookings: seq<Booking>)

  /** `fault` is a failure of the database query. */
  function GetMe(cookies: map<string, Cookie>, crypto: Crypto, users: seq<User>, rows: seq<Booking>,
                 fault: Option<Exception>): (reply: Response<Profile>)
    ensures reply.status in {200, 401, 404, 500}
    ensures reply.status == 401 <==> AuthFailure(cookies, crypto).Some?
    ensures AuthFailure(cookies, crypto).Some? ==>
      reply == Failure(AuthFailure(cookies, crypto).value.0, AuthFailure(cookies, crypto).value.1)
    ensures AuthFailure(cookies, crypto).None? && fault.Some? ==> reply == Failure(500, InternalErrorText)
    ensures AuthFailure(cookies, crypto).None? && fault.None?
            && FindById(users, VerifyToken(crypto, AuthToken(cookies).value).value.userId).None?
            ==> reply == Failure(404, UserNotFoundText)
    ensures AuthFailure(cookies, crypto).None? && fault.None?
            && FindById(users, VerifyToken(crypto, AuthToken(cookies).value).value.userId).Some?
            ==> reply.Success?
    ensures reply.status == 404 ==> reply == Failure(404, UserNotFoundText)
    ensures reply.Success? ==> AuthFailure(cookies, crypto).None?
    ensures reply.Success? ==>
      var id := VerifyToken(crypto, AuthToken(cookies).value).value.userId;
      reply.status == 200
      && FindById(users, id).Some?
      && reply.data == Profile(id, FindById(users, id).value.fullName, FindById(users, id).value.email,
                               BookingsOf(rows, id))
  {
    match AuthFailure(cookies, crypto)
    case Some((status, error)) => Failure(status, error)
    case None =>
      var payload := VerifyToken(crypto, AuthToken(cookies).value).value;
      if fault.Some? then Failure(500, InternalErrorText)
      else match FindById(users, payload.userId)
        case None => Failure(404, UserNotFoundText)
        case Some(user) => Success(200, Profile(user.id, user.fullName, user.email, BookingsOf(rows, user.id)))
  }

  /**
   * The two reads agree: both turn away the same requests with the same
   * 401, and where `me` answers 200 its bookings are the list the bookings
   * read returns.
   */
  lemma MeAgreesWithUserBookings(cookies: map<string, Cookie>, crypto: Crypto, users: seq<User>,
                                 rows: seq<Booking>, fault: Option<Exception>)
    ensures var me := GetMe(cookies, crypto, users, rows, fault);
      var list := GetUserBookings(cookies, crypto, rows, fault);
      (me.status == 401 <==> list.status == 401)
      && (me.status == 401 ==> me.error == list.error)
      && (me.Success? ==> list.Success? && me.data.bookings == list.data)
  {
  }

  /** For a known user, a verified token yields 200 with that user's record. */
  lemma KnownUserFound(cookies: map<string, Cookie>, crypto: Crypto, users: seq<User>, rows: seq<Booking>, u: User)
    requires UniqueIds(users) && u in users
    requires HasToken(cookies) && VerifyToken(crypto, AuthToken(cookies).value) == Some(Claims(u.id))
    ensures GetMe(cookies, crypto, users, rows, None) == Success(200, Profile(u.id, u.fullName, u.email, BookingsOf(rows, u.id)))
  {
    var found := FindById(users, u.id).value;
    var i :| 0 <= i < |users| && users[i] == found;
    var j :| 0 <= j < |users| && users[j] == u;
    assert i == j;
  }
}
