/**
 * What the route handlers exchange with the web framework: thrown values, the
 * two JSON response shapes `NextResponse.json` is called with, and the
 * request's cookie store (`cookies()` from next/headers).
 */
module Http {
  import opened Wrappers

  /** A thrown value: an `Error` instance with its message, or anything else that was thrown. */
  datatype Exception = Error(message: string) | NonError

  /**
   * The text the JavaScript engine gives a TypeError raised by reading a
   * property of null or undefined, or by calling a method a value lacks. The
   * engine's wording is not fixed by the model; only that there is one, and
   * that it does not mention the booking constraint, matters.
   */
  const TypeErrorMessage: string := "TypeError: property read on a value that does not have it"

  /** The error texts more than one handler answers with. */
  const InternalErrorText: string := "Internal server error"
  const MissingFieldsText: string := "Missing required fields"

  /**
   * A JSON response: `{...data}` with a success status, or `{ error }` with an
   * error status.
   */
  datatype Response<T> = Success(status: int, data: T) | Failure(status: int, error: string)

  /** `response.ok`: the status is in the range 200-299. */
  predicate IsOk(status: int)
  {
    200 <= status <= 299
  }

  datatype CookieOptions = CookieOptions(httpOnly: bool, secure: bool, sameSite: string, maxAge: int)

  datatype Cookie = Cookie(value: string, options: CookieOptions)

  /** Thrown by `set` and `delete` on a cookie store that is read-only in the current context. */
  const ReadOnlyCookiesMessage: string :=
    "Cookies can only be modified in a Server Action or Route Handler."

  /**
   * The cookie store of one request. Whether it may be written depends on the
   * context the code runs in (route handlers and server actions may, render
   * code may not), which the model takes as given.
   */
  class CookieJar {
    var entries: map<string, Cookie>
    const writable: bool

    constructor (initial: map<string, Cookie>, canWrite: bool)
      ensures entries == initial && writable == canWrite
    {
      entries := initial;
      writable := canWrite;
    }

    /** `get(name)`: the cookie of that name, if the request carries one. */
    function Get(name: string): (c: Option<Cookie>)
      reads this
      ensures c.Some? <==> name in entries
      ensures c.Some? ==> c.value == entries[name]
    {
      if name in entries then Some(entries[name]) else None
    }

    /** `set(name, value, options)`: replaces or adds the one entry `name`. */
    method Set(name: string, value: string, options: CookieOptions) returns (thrown: Option<Exception>)
      modifies this
      ensures writable ==> thrown == None && entries == old(entries)[name := Cookie(value, options)]
      ensures !writable ==> thrown == Some(Error(ReadOnlyCookiesMessage)) && entries == old(entries)
    {
      if writable {
        entries := entries[name := Cookie(value, options)];
        thrown := None;
      } else {
        thrown := Some(Error(ReadOnlyCookiesMessage));
      }
    }

    /** `delete(name)`: removes the one entry `name`, if present. */
    method Delete(name: string) returns (thrown: Option<Exception>)
      modifies this
      ensures writable ==> thrown == None && entries == old(entries) - {name}
      ensures !writable ==> thrown == Some(Error(ReadOnlyCookiesMessage)) && entries == old(entries)
    {
      if writable {
        entries := entries - {name};
        thrown := None;
      } else {
        thrown := Some(Error(ReadOnlyCookiesMessage));
      }
    }
  }
}
