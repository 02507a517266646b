/**
 * `sendBookingConfirmation`: check the SMTP credentials, then the address,
 * render the ticket lines and hand one message to the mail transport;
 * resolve to `{ success: true, messageId }` or rethrow what was thrown.
 *
 * The transport (nodemailer's `sendMail`) is a parameter. The message's HTML
 * template is reduced to the one part with logic in it, the ticket list, and
 * the guard that `total.toFixed(2)` imposes on the total.
 */
module EmailService {
  import opened Wrappers
  import opened Js
  import opened Http

  /** `process.env.SMTP_USER` and `process.env.SMTP_PASS`. */
  datatype SmtpEnv = SmtpEnv(user: Option<string>, pass: Option<string>)

  /** One message as handed to the transport; `tickets` is the ticket list the HTML body embeds. */
  datatype Mail = Mail(from: string, to: Value, subject: string, tickets: string)

  /** The transport's answer: a message id, or what it threw. */
  type Transport = Mail -> Result<string, Exception>

  /** Whether a message reached the transport, and what the function resolved to (a message id) or threw. */
  datatype SendOutcome = SendOutcome(sent: Option<Mail>, result: Result<string, Exception>)

  const CredentialsMissingText: string := "SMTP credentials are not configured"
  const EmailRequiredText: string := "Email address is required"
  const SenderAddress: string := "\"RZA Zoo\" <rza.enquiries@gmail.com>"
  const Subject: string := "Your RZA Zoo Booking Confirmation"

  predicate Set(v: Option<string>)
  {
    v.Some? && v.value != ""
  }

  predicate Configured(env: SmtpEnv)
  {
    Set(env.user) && Set(env.pass)
  }

  /** `toUpperCase` on one character; letters outside a-z are kept. */
  function UpperChar(c: char): (u: char)
    ensures 'a' <= c <= 'z' ==> 'A' <= u <= 'Z' && u as int == c as int - 32
    ensures !('a' <= c <= 'z') ==> u == c
  {
    if 'a' <= c <= 'z' then (c as int - 32) as char else c
  }

  /** `type.charAt(0).toUpperCase() + type.slice(1)`: only the first character changes. */
  function Capitalise(s: string): (r: string)
    ensures |r| == |s|
    ensures s != "" ==> r[0] == UpperChar(s[0]) && r[1..] == s[1..]
  {
    if s == "" then "" else [UpperChar(s[0])] + s[1..]
  }

  /** `${quantity}x ${Capitalised type}`. */
  function TicketLine(kind: string, quantity: nat): (line: string)
    ensures line == DecimalText(quantity) + "x " + Capitalise(kind)
    ensures |line| == |DecimalText(quantity)| + 2 + |kind|
  {
    DecimalText(quantity) + "x " + Capitalise(kind)
  }

  predicate PositiveQuantity(v: Value)
  {
    v.Num? && v.n > 0
  }

  /** `.filter(([_, q]) => q > 0).map(...)`: one line per entry with a positive quantity, in entry order. */
  function TicketLines(entries: seq<(string, Value)>): (lines: seq<string>)
    ensures |lines| <= |entries|
  {
    if entries == [] then []
    else
      (if PositiveQuantity(entries[0].1) then [TicketLine(entries[0].0, entries[0].1.n)] else [])
      + TicketLines(entries[1..])
  }

  /** One entry gives one line when its quantity is a positive number, and none otherwise. */
  lemma TicketLinesSingle(kind: string, v: Value)
    ensures TicketLines([(kind, v)]) == if PositiveQuantity(v) then [TicketLine(kind, v.n)] else []
  {
    assert [(kind, v)][1..] == [];
  }

  /** The filter and map distribute over concatenation: lines keep the order of their entries. */
  lemma {:induction false} TicketLinesAppend(a: seq<(string, Value)>, b: seq<(string, Value)>)
    ensures TicketLines(a + b) == TicketLines(a) + TicketLines(b)
  {
    if a != [] {
      assert (a + b)[1..] == a[1..] + b;
      TicketLinesAppend(a[1..], b);
    } else {
      assert a + b == b;
    }
  }

  /** `.join('\n')`: separators between lines, none after the last. */
  function JoinLines(lines: seq<string>): (s: string)
    ensures lines == [] ==> s == ""
    ensures |lines| == 1 ==> s == lines[0]
  {
    if lines == [] then ""
    else if |lines| == 1 then lines[0]
    else lines[0] + "\n" + JoinLines(lines[1..])
  }

  lemma {:induction false} JoinLinesAppend(a: seq<string>, b: seq<string>)
    requires a != [] && b != []
    ensures JoinLines(a + b) == JoinLines(a) + "\n" + JoinLines(b)
  {
    if |a| == 1 {
      assert (a + b)[1..] == b;
    } else {
      assert (a + b)[1..] == a[1..] + b;
      JoinLinesAppend(a[1..], b);
    }
  }

  /**
   * `Object.entries(tickets)...join('\n')`. `Object.entries` throws on null and
   * undefined; an object gives its pairs; the model lists no entries for other values.
   */
  function TicketsList(tickets: Value): (r: Result<string, Exception>)
    ensures r.Err? <==> tickets.Null? || tickets.Undefined?
    ensures tickets.Obj? ==> r == Ok(JoinLines(TicketLines(tickets.fields)))
  {
    match tickets
    case Null => Err(Error(TypeErrorMessage))
    case Undefined => Err(Error(TypeErrorMessage))
    case Obj(fields) => Ok(JoinLines(TicketLines(fields)))
    case _ => Ok("")
  }

  function MailFor(details: seq<(string, Value)>, tickets: string): Mail
  {
    Mail(SenderAddress, Lookup(details, "email"), Subject, tickets)
  }

  /**
   * `details` is the booking-details object. The guards run in order:
   * credentials, address, the ticket list, the total's `toFixed`; only then
   * is one message sent, and the transport's result is passed on as it is.
   */
  function SendBookingConfirmation(env: SmtpEnv, details: seq<(string, Value)>, transport: Transport): (o: SendOutcome)
    ensures !Configured(env) ==> o == SendOutcome(None, Err(Error(CredentialsMissingText)))
    ensures Configured(env) && !Truthy(Lookup(details, "email")) ==> o == SendOutcome(None, Err(Error(EmailRequiredText)))
    ensures o.sent.Some? ==>
      Configured(env) && Truthy(Lookup(details, "email"))
      && o.sent.value.to == Lookup(details, "email") && o.sent.value.subject == Subject
      && o.sent.value.from == SenderAddress
      && Ok(o.sent.value.tickets) == TicketsList(Lookup(details, "tickets"))
      && o.result == transport(o.sent.value)
    ensures o.result.Ok? ==> o.sent.Some?
    ensures Configured(env) && Truthy(Lookup(details, "email")) && TicketsList(Lookup(details, "tickets")).Err? ==>
      o == SendOutcome(None, TicketsList(Lookup(details, "tickets")))
    ensures (Configured(env) && Truthy(Lookup(details, "email")) && TicketsList(Lookup(details, "tickets")).Ok?
             && !Lookup(details, "total").Num?) ==> o == SendOutcome(None, Err(Error(TypeErrorMessage)))
    ensures (Configured(env) && Truthy(Lookup(details, "email")) && TicketsList(Lookup(details, "tickets")).Ok?
             && Lookup(details, "total").Num?) ==>
      o.sent == Some(MailFor(details, TicketsList(Lookup(details, "tickets")).value))
      && o.result == transport(o.sent.value)
  {
    if !Configured(env) then SendOutcome(None, Err(Error(CredentialsMissingText)))
    else if !Truthy(Lookup(details, "email")) then SendOutcome(None, Err(Error(EmailRequiredText)))
    else match TicketsList(Lookup(details, "tickets"))
      case Err(e) => SendOutcome(None, Err(e))
      case Ok(list) =>
        if !Lookup(details, "total").Num? then SendOutcome(None, Err(Error(TypeErrorMessage)))
        else
          var mail := MailFor(details, list);
          SendOutcome(Some(mail), transport(mail))
  }

  /** Lines for quantities 2 and 0 and 1: the zero is dropped, the rest keep their order and are capitalised. */
  lemma TicketsListExample()
    ensures TicketsList(Obj([("adult", Num(2)), ("child", Num(0)), ("family", Num(1))])) == Ok("2x Adult\n1x Family")
  {
    var entries := [("adult", Num(2)), ("child", Num(0)), ("family", Num(1))];
    assert DecimalText(2) == "2" && DecimalText(1) == "1";
    assert Capitalise("adult") == "Adult" by { assert "adult"[1..] == "dult"; }
    assert Capitalise("family") == "Family" by { assert "family"[1..] == "amily"; }
    assert TicketLine("adult", 2) == "2x Adult";
    assert TicketLine("family", 1) == "1x Family";
    assert entries[1..][1..][1..] == [];
    assert TicketLines(entries[1..][1..]) == ["1x Family"];
    assert TicketLines(entries[1..]) == ["1x Family"];
    assert TicketLines(entries) == ["2x Adult", "1x Family"];
    assert ["2x Adult", "1x Family"][1..] == ["1x Family"];
    assert JoinLines(["2x Adult", "1x Family"]) == "2x Adult" + "\n" + "1x Family";
    assert "2x Adult" + "\n" + "1x Family" == "2x Adult\n1x Family";
  }
}
