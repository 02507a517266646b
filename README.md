# RZA Zoo: booking and session logic in Dafny

A model of the request-handling core of the Riget Zoo Adventures booking
site. It covers five parts:

- **The server's route handlers:** create a booking, list a user's bookings, sign up, read the signed-in user (`me`), sign out, and send a booking confirmation email.
- **The session helpers:** bcrypt hashing, JSON Web Tokens and the `auth-token` cookie.
- **The email service:** `sendBookingConfirmation`.
- **The client's logic-carrying components:** the sign-up/sign-in form's password policy and submit gate, and the booking confirmation dialog's request and error handling.
- **The "About Us" carousel.**

Each handler is a function from the request (cookies, parsed body) and the
table it reads to the reply, plus the new table when it writes. The bookings
and sign-up handlers also exist as methods on the store classes
(`BookingStore`, `UserStore`), and their `ensures` tie the new table to the
specification function. Sign-up returns the cookie it sets on its response;
sign-out and the cookie helpers write the request's cookie store, a class
(`Http.CookieJar`). The client components with state (`AuthFormState`,
`ModalState`, `CarouselState`) are classes whose methods update their fields.

JavaScript's values are a `Js.Value` datatype. It models truthiness
(`!x`), property reads that throw on `null`/`undefined`, optional chaining,
object spread and `String.includes`. External libraries are parameters:
bcrypt and jsonwebtoken (`Auth.Crypto`), `JSON.parse`, `parseFloat` and
`new Date` (`BookingsRoute.Runtime`), the client's `toISOString` and
`JSON.stringify` (`ConfirmationModal.ClientRuntime`), and the mail transport
(`EmailService.Transport`). Lemmas that need a library property state it as a
precondition (`Auth.JwtRoundTrips`, `Auth.BcryptSound`). The database is a
sequence of rows with the unique constraint the handlers rely on.
A database failure is an `Option<Exception>` parameter. The fresh user id and
the clock are parameters as well.

Properties the model proves, by area:

- **Bookings route:**
  - the validation ladder, each rejection in both directions;
  - a total of 0 is "missing", and a negative total is stored;
  - an absent or bad session never rejects a booking; it makes the booking anonymous;
  - a stored booking belongs to the token's user;
  - a booking for a taken email and date is a 409 with the table unchanged;
  - the unique constraint holds after every request.
- **Reads:** the two authenticated reads answer the same 401s, and `me`'s bookings equal the bookings read's list. Both list exactly the rows the user owns, ascending by date, as a permutation of those rows.
- **Sign-up:**
  - required fields are checked before the duplicate check;
  - success adds exactly the submitted user with a password hash that verifies;
  - the seven-day `auth-token` cookie is set;
  - signing up and then calling `me` with that cookie returns the new user.
- **Email:** a falsy detail is the 400 "Missing required booking details", and every failure after that guard is the route's one fixed 500 text; `cardLastFour` is lifted without being required; the confirmation's ticket lines equal the dialog's.
- **Password policy:** the password is accepted exactly when it meets all five rules; otherwise the first broken rule's message is given.
- **Carousel:** the index stays in range; next and previous undo each other; `k` steps are `+k mod 3`; a full turn returns to the start.

One cross-component observation is proved rather than assumed
(`Scenarios.ConflictShowsServerText`). The dialog special-cases an error code
`DUPLICATE_BOOKING`. The bookings route never sends that code: on a conflict
it sends the sentence "A booking already exists for this email and date". So
the dialog shows that sentence, not its own warning.

## Model

| member | source | states |
|---|---|---|
| Js.LookupFirstMatch | src/app/api/bookings/route.ts:20 | a property read returns the value of the first pair with that key; earlier pairs with other keys do not matter |
| Js.LookupFindsPair | src/app/api/bookings/route.ts:20 | a key the object holds is read from one of the object's own pairs |
| Js.With | src/app/api/email/booking-confirmation/route.ts:17-20 | object spread with one extra key: that key reads the new value, every other key reads as before, and the key set gains exactly that key; an existing key keeps its position (every pair keeps its key, and each is either kept or becomes the new pair), a new one is appended |
| Js.DecimalText | src/lib/emailService.ts:59 | `${quantity}` writes a non-empty string of digits with no leading zero |
| Js.DecimalTextRoundTrip | src/lib/emailService.ts:59 | the digits written for a quantity read back as that quantity |
| Js.DecimalTextInjective | src/lib/emailService.ts:59 | different quantities are written differently |
| Http.CookieJar.constructor | src/lib/auth.ts:27-45 | a request's cookie store starts with the request's cookies and a fixed writability |
| Http.CookieJar.Get | src/lib/auth.ts:37-40 | `get(name)` finds a cookie exactly when the store holds that name |
| Http.CookieJar.Set | src/lib/auth.ts:27-35 | a writable store replaces or adds exactly that entry; a read-only one throws and is unchanged |
| Http.CookieJar.Delete | src/lib/auth.ts:42-45 | a writable store drops exactly that entry; a read-only one throws and is unchanged |
| Auth.HashPassword | src/lib/auth.ts:7-9 | the stored hash is bcrypt's hash of the password with 12 rounds |
| Auth.VerifyPassword | src/lib/auth.ts:11-13 | the check is bcrypt's compare, with the plain password first and the hash second |
| Auth.CreateToken | src/lib/auth.ts:15-17 | the token is jsonwebtoken's signature of a payload holding only the user id, under the configured secret, expiring in "7d" |
| Auth.JwtSecret | src/lib/auth.ts:5 | the configured secret when it is set and non-empty, otherwise "your-secret-key"; never empty |
| Auth.VerifyToken | src/lib/auth.ts:19-25 | null exactly when `verify` throws; otherwise the payload `verify` returned |
| Auth.TokenRoundTrip | src/lib/auth.ts:15-25 | with a jsonwebtoken that round-trips, a token made for a user id verifies to that user id |
| Auth.PasswordMatchesItsHash | src/lib/auth.ts:7-13 | with a sound bcrypt, a password compares equal to its own 12-round hash |
| Auth.AuthCookieOptions | src/lib/auth.ts:29-34 | http-only, `lax`, secure exactly in production, a seven-day max age (604800 s) |
| Auth.AuthToken | src/app/api/bookings/route.ts:9 | `cookies.get('auth-token')?.value` is present exactly when the cookie is, and is its value |
| Auth.SetAuthCookie | src/lib/auth.ts:27-35 | a writable store holds the token under `auth-token` with the session options afterwards and nothing else changes; a read-only store throws |
| Auth.GetAuthCookie | src/lib/auth.ts:37-40 | the value of the `auth-token` entry, when there is one |
| Auth.RemoveAuthCookie | src/lib/auth.ts:42-45 | a writable store no longer holds `auth-token` and nothing else changes; a read-only store throws |
| BookingTable.CreateResult | src/app/api/bookings/route.ts:49-58 | the insert succeeds exactly when the database does not fail and no row holds the same email and date; the new row carries the data and the next id; a clash raises the `unique_booking` error |
| BookingTable.CreateKeepsInvariants | src/app/api/bookings/route.ts:49-58 | a successful insert keeps the unique constraint and the numbering of ids |
| BookingTable.BookingStore.constructor | src/app/api/bookings/route.ts:49 | the table starts empty and valid |
| BookingTable.BookingStore.Create | src/app/api/bookings/route.ts:49-58 | the insert's result is `CreateResult`; the table gains that row on success and is unchanged otherwise; the constraint still holds |
| BookingTable.InsertByDate | src/app/api/bookings/user/route.ts:28 | inserting into a date-sorted list keeps it sorted and adds exactly that row |
| BookingTable.SortByDate | src/app/api/bookings/user/route.ts:28 | `orderBy: { visitDate: 'asc' }` gives a sorted permutation of the rows |
| BookingTable.OwnedBy | src/app/api/bookings/user/route.ts:27 | `where: { userId }` keeps exactly the rows with that owner, each as many times as the table holds it |
| BookingTable.BookingsOf | src/app/api/bookings/user/route.ts:26-29 | the user's bookings: sorted by date, a permutation of the rows the user owns: each owned row as many times as the table holds it, no other row |
| BookingTable.AnonymousBookingsNeverListed | src/app/api/bookings/route.ts:10 | a booking made without a session is never listed for any user |
| BookingsRoute.ResolveUserId | src/app/api/bookings/route.ts:8-17 | a user id exactly when a non-empty token verifies, and then the token's user id |
| BookingsRoute.AnyMissing | src/app/api/bookings/route.ts:22 | a total of 0, an empty email or an undefined date counts as missing; a body with nothing missing has a non-zero numeric total if the total is a number |
| BookingsRoute.Destructure | src/app/api/bookings/route.ts:20 | destructuring the body throws exactly for null and undefined |
| BookingsRoute.ParsedTickets | src/app/api/bookings/route.ts:30-38 | a string is parsed as JSON (none when `JSON.parse` throws); anything else is kept |
| BookingsRoute.ParsedTotal | src/app/api/bookings/route.ts:40-47 | a string total goes through `parseFloat`, a number is kept, any other value is NaN |
| BookingsRoute.Validate | src/app/api/bookings/route.ts:22-58 | each of the three 400s happens exactly when the earlier checks pass and its own fails; an accepted body becomes the row with the parsed date, tickets and total, the card digits, the email and the session's user |
| BookingsRoute.AcceptedWhenChecksPass | src/app/api/bookings/route.ts:22-58 | a body that passes all three checks is accepted with every field taken from it |
| BookingsRoute.CatchReply | src/app/api/bookings/route.ts:62-74 | 409 with the conflict text exactly for an error whose message contains `unique_booking`; otherwise 500 with the error's message, or with "Failed to create booking" for a thrown non-error |
| BookingsRoute.Process | src/app/api/bookings/route.ts:19-74 | a failure leaves the table unchanged; success is a 200 only for a body that validates, and its row, appended to the table, is the validated date, tickets, total, card digits and email with the next id and the session's user; the only 400 texts are the three rejections; a rejected body gets the 400 with its own rejection's text; a body that is not JSON, a null or undefined body, and a database fault all go through the catch block (`CatchReply`), which answers with the error's own message |
| BookingsRoute.ValidBookingStored | src/app/api/bookings/route.ts:49-61 | a body that validates, for a free email and date, with the database working, is answered 200 with the new row, which is appended |
| BookingsRoute.PostBookingSpec | src/app/api/bookings/route.ts:8-17 | when no user is resolved (no token, an empty one, or one that fails verification) the request is handled as an anonymous one; the status is always the anonymous request's status; a stored row's owner is the session's resolved user |
| BookingsRoute.PostBooking | src/app/api/bookings/route.ts:6-75 | the handler's reply and new table are the ones `PostBookingSpec` gives, and the table stays valid |
| BookingsRoute.SessionNeverRejects | src/app/api/bookings/route.ts:8-17 | the resolved user never changes the status or whether a row is stored |
| BookingsRoute.NoTokenMeansAnonymous | src/app/api/bookings/route.ts:10-17 | without a non-empty token, or with one that fails verification, the booking is made for nobody |
| BookingsRoute.StoredRowOwnedByTokenUser | src/app/api/bookings/route.ts:56 | a stored booking's owner is the verified token's user |
| BookingsRoute.MissingFieldsRejectedFirst | src/app/api/bookings/route.ts:22-27 | a missing field is a 400 "Missing required fields" with nothing stored, whatever the tickets and total are |
| BookingsRoute.ZeroTotalIsMissing | src/app/api/bookings/route.ts:22 | a total of 0 is rejected as missing |
| BookingsRoute.NegativeTotalStored | src/app/api/bookings/route.ts:40-54 | a negative total that passes the other checks is stored as given |
| BookingsRoute.ViolationNamesConstraint | src/app/api/bookings/route.ts:64 | the table's unique-violation message contains `unique_booking` |
| BookingsRoute.DuplicateIsConflict | src/app/api/bookings/route.ts:62-68 | a valid booking for an email and date already taken is a 409 with the conflict text, and the table is unchanged |
| BookingsRoute.PostKeepsSlotsUnique | src/app/api/bookings/route.ts:49-58 | whatever is posted, no two rows share an email and a date afterwards, and ids stay numbered |
| UserTable.FindByEmail | src/app/api/auth/signup/route.ts:19-21 | a user exactly when one holds that email, and it is such a user |
| UserTable.FindById | src/app/api/auth/me/route.ts:27-28 | a user exactly when one holds that id, and it is such a user |
| UserTable.FindAppended | src/app/api/auth/me/route.ts:27-28 | with unique ids, a newly added user is found by its id |
| UserTable.CreateResult | src/app/api/auth/signup/route.ts:32-40 | the insert succeeds exactly when the database does not fail and neither the id nor the email is taken; it returns the user as given |
| UserTable.CreateKeepsKeysUnique | src/app/api/auth/signup/route.ts:32-40 | a successful insert keeps emails and ids unique |
| UserTable.UserStore.constructor | src/app/api/auth/signup/route.ts:32 | the table starts empty and valid |
| UserTable.UserStore.Create | src/app/api/auth/signup/route.ts:32-40 | the insert's result is `CreateResult`; the table gains that user on success and is unchanged otherwise; keys stay unique |
| SignupRoute.SignupSpec | src/app/api/auth/signup/route.ts:6-66 | every failure leaves the table unchanged and sets no cookie; success is exactly 201 "User created successfully" with a cookie; every 500 is "Internal server error", every 400 "Missing required fields", every 409 "User already exists"; a body that is not JSON, or a failing lookup after the field check, is that 500; a complete body with an unregistered email succeeds exactly when the insert does, and a failed insert is that 500 |
| SignupRoute.Signup | src/app/api/auth/signup/route.ts:6-66 | the handler's reply, cookie and new table are the ones `SignupSpec` gives, and the table stays valid |
| SignupRoute.MissingFieldsCheckedFirst | src/app/api/auth/signup/route.ts:11-16 | a missing field is a 400 even when the email is registered |
| SignupRoute.DuplicateEmailRejected | src/app/api/auth/signup/route.ts:19-28 | a registered email is a 409 "User already exists" and the table is unchanged |
| SignupRoute.SuccessfulSignup | src/app/api/auth/signup/route.ts:30-56 | success appends exactly the submitted user with the fresh id, the 12-round hash and the clock, and sets `auth-token` to a token for that id with the seven-day options |
| SignupRoute.SignupKeepsEmailsUnique | src/app/api/auth/signup/route.ts:19-40 | whatever is posted, emails and ids stay unique |
| SignupRoute.StoredHashVerifies | src/app/api/auth/signup/route.ts:31-37 | with a sound bcrypt, the stored hash verifies against the submitted password |
| UserBookingsRoute.AuthFailure | src/app/api/bookings/user/route.ts:8-24 | 401 "Not authenticated" without a non-empty token, 401 "Invalid token" when it does not verify, none exactly when it verifies |
| UserBookingsRoute.GetUserBookings | src/app/api/bookings/user/route.ts:6-39 | 401 exactly on an auth failure, with `AuthFailure`'s text; 500 "Internal server error" when the query fails; 200 with the token user's bookings, sorted, whenever the token verifies and the query does not fail |
| UserBookingsRoute.ListedExactlyOwned | src/app/api/bookings/user/route.ts:26-31 | for a verified token the list holds exactly the rows that user owns, ascending by date |
| MeRoute.GetMe | src/app/api/auth/me/route.ts:6-58 | 401 exactly on an auth failure, with `AuthFailure`'s text; 500 "Internal server error" when the query fails; 404 "User not found" exactly when the token's user is not in the table, and 200 whenever that user is found; 200 with the id, name, email and date-sorted bookings of the token's user |
| MeRoute.MeAgreesWithUserBookings | src/app/api/auth/me/route.ts:11-48 | `me` and the bookings read give the same 401s, and `me`'s bookings are the list the bookings read returns |
| MeRoute.KnownUserFound | src/app/api/auth/me/route.ts:27-49 | for a registered user with a verified token, the reply is 200 with that user's record and bookings |
| SignoutRoute.Signout | src/app/api/auth/signout/route.ts:4-19 | with a writable store, 200 "Signed out successfully" and the session cookie gone; otherwise 500 with the cookies unchanged |
| EmailService.UpperChar | src/lib/emailService.ts:59 | `toUpperCase` on one character maps a-z to A-Z and keeps the rest |
| EmailService.Capitalise | src/lib/emailService.ts:59 | only the first character is upper-cased; the length and the rest are kept |
| EmailService.TicketLine | src/lib/emailService.ts:59 | a line is the quantity's digits, "x " and the capitalised kind |
| EmailService.TicketLines | src/lib/emailService.ts:57-59 | at most one line per ticket entry |
| EmailService.TicketLinesSingle | src/lib/emailService.ts:57-59 | one entry gives its `Nx Kind` line when the quantity is a positive number and no line otherwise; with `TicketLinesAppend` this fixes the lines of every list |
| EmailService.TicketLinesAppend | src/lib/emailService.ts:57-59 | the filter and map distribute over concatenation, so the lines keep their entries' order |
| EmailService.JoinLines | src/lib/emailService.ts:60 | no lines join to "" and one line joins to itself |
| EmailService.JoinLinesAppend | src/lib/emailService.ts:60 | joining two non-empty runs of lines puts exactly one newline between them |
| EmailService.TicketsList | src/lib/emailService.ts:57-60 | `Object.entries` throws exactly for null and undefined; an object gives its joined ticket lines |
| EmailService.TicketsListExample | src/lib/emailService.ts:57-60 | quantities 2, 0 and 1 give "2x Adult\n1x Family" |
| EmailService.SendBookingConfirmation | src/lib/emailService.ts:46-115 | unset credentials and a missing address throw their messages with nothing sent; a sent message goes from the zoo's address to the booking's email with the fixed subject and the ticket list, and the transport's result is returned; a configured call with an address, listable tickets and a numeric total always sends that message; an error from the ticket list or the total is thrown as it is, with nothing sent |
| EmailRoute.MissingDetails | src/app/api/email/booking-confirmation/route.ts:9 | a total of 0 counts as missing; with the other four details truthy, a `paymentInfo` without `cardLastFour` (an empty object) does not |
| EmailRoute.Forwarded | src/app/api/email/booking-confirmation/route.ts:17-20 | the details gain `cardLastFour` read from `paymentInfo`; every other field is kept |
| EmailRoute.PostConfirmation | src/app/api/email/booking-confirmation/route.ts:4-36 | 400 exactly when a required detail is falsy; every other failure is 500 with the one fixed text; 200 carries the transport's message id |
| EmailRoute.CardLastFourNotRequired | src/app/api/email/booking-confirmation/route.ts:9-20 | a `paymentInfo` with no `cardLastFour` passes the guard and is forwarded as undefined |
| EmailRoute.UnconfiguredIsFixed500 | src/app/api/email/booking-confirmation/route.ts:23-34 | missing SMTP credentials give the route's fixed 500 and no mail |
| AuthForm.ValidatePassword | src/components/AuthForm.tsx:21-38 | "" exactly for a password that meets all five rules; otherwise the message of the first rule it breaks, each in both directions |
| AuthForm.SubmitOutcome | src/components/AuthForm.tsx:40-56 | something is submitted exactly when the error is cleared; sign-in always submits; sign-up submits exactly a policy-meeting, confirmed password; what is submitted is the form without the confirmation |
| AuthForm.Updated | src/components/AuthForm.tsx:58-60 | exactly the named field takes the new value |
| AuthForm.AuthFormState.constructor | src/components/AuthForm.tsx:12-19 | empty fields and no error |
| AuthForm.AuthFormState.HandleSubmit | src/components/AuthForm.tsx:40-56 | the new error and the submitted data are those `SubmitOutcome` gives |
| AuthForm.AuthFormState.HandleChange | src/components/AuthForm.tsx:58-64 | the named field changes; the error is cleared exactly for a password field in sign-up mode |
| AuthForm.FailureMessagesDistinct | src/components/AuthForm.tsx:21-51 | the six failure messages are non-empty and pairwise different |
| AuthForm.PolicyExample | src/components/AuthForm.tsx:21-38 | "Zookeep3r!" passes; "zookeep3r!" fails on the capital-letter rule |
| ConfirmationModal.TicketEntries | src/components/ConfirmationModal.tsx:36 | the tickets map as JSON pairs, one per ticket kind, in order |
| ConfirmationModal.BookingRequest | src/components/ConfirmationModal.tsx:34-40 | the request body is an object with five properties |
| ConfirmationModal.BookingRequestFields | src/components/ConfirmationModal.tsx:34-40 | the request carries the date's ISO text, the stringified tickets, the total, `paymentInfo` and the email |
| ConfirmationModal.ReceivedFrom | src/components/ConfirmationModal.tsx:48-50 | the browser sees the handler's status, and an `error` field exactly for a failure reply |
| ConfirmationModal.SaveErrorAfter | src/components/ConfirmationModal.tsx:48-61 | ok clears the error; DUPLICATE_BOOKING gives the fixed warning; another error reply gives its own non-empty text or "Failed to save booking"; a thrown error gives its message |
| ConfirmationModal.ModalTicketLines | src/components/ConfirmationModal.tsx:111-117 | at most one rendered line per ticket kind |
| ConfirmationModal.ModalTicketLinesSingle | src/components/ConfirmationModal.tsx:111-117 | one ticket kind gives its `Nx Kind` line when its quantity is above zero and no line otherwise |
| ConfirmationModal.ModalTicketLinesAppend | src/components/ConfirmationModal.tsx:111-117 | rendering distributes over concatenation, so lines keep the order of the ticket kinds |
| ConfirmationModal.ModalLinesAreEmailLines | src/components/ConfirmationModal.tsx:111-117 | the dialog's ticket lines are the confirmation email's lines for the same tickets |
| ConfirmationModal.ModalState.constructor | src/components/ConfirmationModal.tsx:28 | no save error at first |
| ConfirmationModal.ModalState.SaveBooking | src/components/ConfirmationModal.tsx:30-66 | while open, the error becomes `SaveErrorAfter` of the request's result; while closed, nothing changes |
| ConfirmationModal.ModalState.Render | src/components/ConfirmationModal.tsx:26-134 | nothing exactly when closed; the error view exactly for a non-empty error; otherwise the confirmation with the dialog's ticket lines and email |
| Carousel.NextIndex | src/components/AboutUs.tsx:44 | the next slide stays in range and wraps from the last to the first |
| Carousel.PrevIndex | src/components/AboutUs.tsx:49 | the previous slide stays in range and wraps from the first to the last |
| Carousel.StepsAreInverse | src/components/AboutUs.tsx:44-49 | previous undoes next and next undoes previous |
| Carousel.Advance | src/components/AboutUs.tsx:44 | any number of steps stays in range |
| Carousel.AdvanceIsModular | src/components/AboutUs.tsx:44 | `k` steps from slide `i` land on `(i + k) mod 3` |
| Carousel.FullTurnReturns | src/components/AboutUs.tsx:44 | three steps, or any whole number of turns, return to the starting slide |
| Carousel.CarouselState.constructor | src/components/AboutUs.tsx:31-32 | slide 0, direction right |
| Carousel.CarouselState.NextSlide | src/components/AboutUs.tsx:42-45 | the index takes its next value and the direction becomes right |
| Carousel.CarouselState.PrevSlide | src/components/AboutUs.tsx:47-50 | the index takes its previous value and the direction becomes left |
| Carousel.CarouselState.SelectDot | src/components/AboutUs.tsx:91-95 | a dot selects its own slide and leaves the direction alone |
| Carousel.CarouselState.ActiveDot | src/components/AboutUs.tsx:95 | the highlighted dot is exactly the current slide's |
| Scenarios.SignupThenMe | src/app/api/auth/signup/route.ts:43-56 | after a successful sign-up, `me` with the cookie it set returns the new user's id, name, email and bookings |
| Scenarios.RequestReadBack | src/components/ConfirmationModal.tsx:34-46 | the bookings route's destructuring reads back each field the dialog sent |
| Scenarios.FilledRequestComplete | src/app/api/bookings/route.ts:22 | a dialog request with non-empty fields and a non-zero total has nothing the route counts as missing |
| Scenarios.ModalRequestValidates | src/components/ConfirmationModal.tsx:34-46 | such a request, with a `JSON.parse` that reads back `JSON.stringify`, passes validation as the dialog's own booking |
| Scenarios.ModalZeroTotalRejected | src/components/ConfirmationModal.tsx:37 | a dialog total of 0 is rejected as missing, nothing is stored, and the dialog shows "Missing required fields" |
| Scenarios.ConflictShowsServerText | src/components/ConfirmationModal.tsx:50-54 | on a 409 from the bookings route the dialog shows the route's sentence, never its DUPLICATE_BOOKING warning |
| Scenarios.StoredBookingClearsError | src/components/ConfirmationModal.tsx:57 | a stored booking leaves the dialog without an error |

## Left out

- Numbers are integers. A total is read as an integer number of pence and a quantity as an integer, so floating point, `toFixed(2)` rounding and `parseFloat` of fractional text are not modelled. `parseFloat` is a parameter.
- Dates are day numbers. `new Date(...)`, `toISOString` and the `en-GB` date formatting are parameters or left out, and an invalid date (which Prisma would reject) is not modelled.
- BookingsRoute.ParsedTotal: a total that is neither a string nor a number is treated as NaN (a 400). JavaScript's `isNaN` would coerce `true` or `[5]` to a number and reach the insert, where the database rejects it with a 500.
- EmailService.TicketsList: `Object.entries` of a string or an array is taken to have no entries, and a quantity that is not a number never counts as positive.
- EmailService.UpperChar: only a-z are upper-cased; `toUpperCase` on other letters is not modelled.
- Js.Lookup: an object with a repeated key is read at the first pair; JSON parsing keeps the last, so the model assumes parsed objects have distinct keys.
- AuthForm.ValidatePassword: the length counts Dafny characters, not UTF-16 code units.
- Auth.VerifyToken: every payload `verify` accepts is taken to carry a string `userId` (the source's `as { userId: string }` cast). A token that verifies without one would reach the queries with `userId: undefined`; that path is not modelled, and `AnonymousBookingsNeverListed` and `ListedExactlyOwned` rely on it.
- The password hash, token signing and token verification are uninterpreted functions. Token expiry and the clock it depends on are not modelled; an expired token is one that `verify` rejects.
- ViolationNamesConstraint: the text of the error the database raises on a duplicate booking is not part of this model; it is taken to name the constraint (`unique_booking`, as the handler's `includes` check expects). Prisma's wording depends on the database and the schema; an error worded with the column names instead would reach the 500 branch, as `CatchReply` states for any message without `unique_booking`.
- The text of the TypeError the engine raises on a property read of null or undefined is a fixed stand-in (`Http.TypeErrorMessage`); the model relies only on its not naming `unique_booking`.
- SignupRoute.SignupSpec: the body's three fields are taken to be strings, with an absent field read as "". A truthy non-string field (a number, an object) passes the 400 check in the source and then fails in bcrypt or Prisma with a 500; that path is not modelled.
- BookingTable.CreateResult: a booking's `email` and `cardLastFour` are kept as JSON values. The bookings route checks only that they are truthy, so a truthy non-string email or card number is stored with a 200 here; the database would presumably reject it with a 500, but its column types are not part of this model.
- The users and bookings tables hold only what the handlers use. The Prisma schema is not part of this model, and the `unique_booking` constraint is taken to be on email and visit date, the pair the conflict message names.
- The sign-up check-then-insert race between concurrent requests is not modelled; requests run one at a time.
- The nodemailer transport creation and its `verify` callback, and the HTML template except the ticket list and the `toFixed` on the total, are left out as I/O and presentation.
- Console logging, React hooks and effects, the carousel's seven-second timer, and the static pages and components (Navbar, Hero, Footer, Education, OurAnimals, the page wrappers) are left out: they hold no decision logic.
- There is no sign-in route in the repository, so the sign-in form's submission has no server side here.
