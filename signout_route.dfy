/**
 * `POST /api/auth/signout`: delete the `auth-token` cookie. There is no check
 * that the caller was signed in; a cookie store that refuses the deletion
 * makes the handler answer 500.
 */
module SignoutRoute {
  import opened Wrappers
  import opened Http
  import opened Auth

  const SignedOutText: string := "Signed out successfully"

  method Signout(jar: CookieJar) returns (reply: Response<string>)
    modifies jar
    ensures jar.writable ==> reply == Success(200, SignedOutText)
    ensures jar.writable ==> jar.entries == old(jar.entries) - {AuthCookieName} && GetAuthCookie(jar) == None
    ensures !jar.writable ==> reply == Failure(500, InternalErrorText) && jar.entries == old(jar.entries)
  {
    var thrown := RemoveAuthCookie(jar);
    if thrown.Some? {
      return Failure(500, InternalErrorText);
    }
    reply := Success(200, SignedOutText);
  }
}
