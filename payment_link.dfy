/**
 * The `send-payment-link` function (send-payment-link/index.ts): resolve
 * the invoice fields from the request body and the invoice row, validate
 * them, create a checkout session, store its URL on the invoice, and
 * e-mail it through the configured provider. The database, the payment
 * processor and the mail providers are inputs; their calls are recorded as
 * a trace of effects.
 */
module PaymentLink {
  import opened Wrappers
  import opened JsonValues
  import Text

  // ---------------------------------------------------------------------
  // Helpers

  /** `String(value ?? "").trim()` */
  function ToSafeString(v: Option<Json>): (r: string)
    ensures v.None? || v.value.JNull? ==> r == ""
    ensures v.Some? && !v.value.JNull? ==> r == Text.Trim(ToText(v))
    ensures v.Some? && v.value.JStr? ==> exists k :: Text.OccursAt(v.value.s, r, k)
    ensures r == [] || (!Text.IsSpace(r[0]) && !Text.IsSpace(r[|r| - 1]))
  {
    if v.None? || v.value.JNull? then "" else Text.TrimSpec(ToText(v)); Text.Trim(ToText(v))
  }

  /** `toSafeString` of an environment variable. */
  function EnvString(v: Option<string>): string
  {
    ToSafeString(if v.Some? then Some(JStr(v.value)) else None)
  }

  /** `!!Deno.env.get(name)`: set and non-empty. */
  predicate IsSet(v: Option<string>)
  {
    v.Some? && v.value != ""
  }

  /** `s.replace(/\/+$/, "")`: every trailing slash removed. */
  function StripTrailingSlashes(s: string): (r: string)
    ensures Text.StartsWith(s, r)
    ensures r == [] || r[|r| - 1] != '/'
    ensures forall i :: |r| <= i < |s| ==> s[i] == '/'
  {
    if s != [] && s[|s| - 1] == '/' then StripTrailingSlashes(s[..|s| - 1]) else s
  }

  const DEFAULT_APP_URL := "https://floatyouraicfo.com"

  /** The configuration the function reads from its environment. */
  datatype Env = Env(
    supabaseUrl: Option<string>, serviceRoleKey: Option<string>, stripeKey: Option<string>,
    appBaseUrl: Option<string>, frontendUrl: Option<string>,
    emailProvider: Option<string>, resendKey: Option<string>, sendgridKey: Option<string>,
    emailFrom: Option<string>)

  /** The site the checkout returns to: the first configured base URL without trailing slashes. */
  function AppBaseUrl(env: Env): (r: string)
    ensures IsSet(env.appBaseUrl) ==> r == StripTrailingSlashes(env.appBaseUrl.value)
    ensures !IsSet(env.appBaseUrl) && IsSet(env.frontendUrl) ==> r == StripTrailingSlashes(env.frontendUrl.value)
    ensures !IsSet(env.appBaseUrl) && !IsSet(env.frontendUrl) ==> r == DEFAULT_APP_URL
  {
    var base := if IsSet(env.appBaseUrl) then env.appBaseUrl.value
                else if IsSet(env.frontendUrl) then env.frontendUrl.value
                else DEFAULT_APP_URL;
    assert StripTrailingSlashes(DEFAULT_APP_URL) == DEFAULT_APP_URL by {
      assert DEFAULT_APP_URL[|DEFAULT_APP_URL| - 1] == 'm';
    }
    StripTrailingSlashes(base)
  }

  datatype Provider = Resend | SendGrid

  function ProviderName(p: Provider): string
  {
    if p == Resend then "Resend" else "SendGrid"
  }

  function KeyName(p: Provider): string
  {
    if p == Resend then "RESEND_API_KEY" else "SENDGRID_API_KEY"
  }

  /** Why a request fails; `Message` gives the error text the function answers with. */
  datatype Failure =
    | ChosenKeyMissing(chosen: Provider)
    | UnknownProvider
    | NoProvider
    | NoSender
    | KeyMissing(provider: Provider)
    | Rejected(rejecting: Provider, status: int, detail: string)
    | DatabaseCredentialsMissing
    | ProcessorKeyMissing
    | InvoiceLoadFailed(id: string, reason: string)
    | NoClientEmail
    | InvalidAmount
    | NoSessionUrl
    | NullBody
    | Thrown(message: string)

  function Message(e: Failure): string
  {
    match e
    case ChosenKeyMissing(p) =>
      "EMAIL_PROVIDER is " + Text.Lower(ProviderName(p)) + " but " + KeyName(p) + " is missing"
    case UnknownProvider => "EMAIL_PROVIDER must be either resend or sendgrid"
    case NoProvider => "No email provider configured. Set RESEND_API_KEY or SENDGRID_API_KEY."
    case NoSender => "EMAIL_FROM is required"
    case KeyMissing(p) => KeyName(p) + " is missing"
    case Rejected(p, status, detail) => ProviderName(p) + " failed: " + Text.IntToString(status) + " " + detail
    case DatabaseCredentialsMissing => "Supabase service credentials are missing"
    case ProcessorKeyMissing => "STRIPE_SECRET_KEY is missing"
    case InvoiceLoadFailed(id, reason) => "Failed to load invoice " + id + ": " + reason
    case NoClientEmail => "No client_email available. Provide client_email or set it on the invoice."
    case InvalidAmount => "Invalid amount. Provide amount_cents/amount or link a valid invoice."
    case NoSessionUrl => "Stripe checkout session URL was not returned"
    case NullBody => "Cannot read properties of null (reading 'invoice_id')"
    case Thrown(m) => m
  }

  /**
   * `resolveEmailProvider`: an explicit choice must name a provider whose
   * key is configured; otherwise Resend is preferred over SendGrid.
   */
  function ResolveEmailProvider(env: Env): (r: Result<Provider, Failure>)
    ensures r == Ok(Resend) ==> IsSet(env.resendKey)
    ensures r == Ok(SendGrid) ==> IsSet(env.sendgridKey)
    ensures Text.Lower(EnvString(env.emailProvider)) == "" ==>
      (IsSet(env.resendKey) ==> r == Ok(Resend))
      && (!IsSet(env.resendKey) && IsSet(env.sendgridKey) ==> r == Ok(SendGrid))
      && (!IsSet(env.resendKey) && !IsSet(env.sendgridKey) ==> r == Err(NoProvider))
    ensures Text.Lower(EnvString(env.emailProvider)) !in {"", "resend", "sendgrid"} ==> r == Err(UnknownProvider)
    ensures Text.Lower(EnvString(env.emailProvider)) == "resend" ==>
      r == if IsSet(env.resendKey) then Ok(Resend) else Err(ChosenKeyMissing(Resend))
    ensures Text.Lower(EnvString(env.emailProvider)) == "sendgrid" ==>
      r == if IsSet(env.sendgridKey) then Ok(SendGrid) else Err(ChosenKeyMissing(SendGrid))
  {
    var explicit := Text.Lower(EnvString(env.emailProvider));
    var hasResend := IsSet(env.resendKey);
    var hasSendgrid := IsSet(env.sendgridKey);
    if explicit != "" then
      if explicit == "resend" then
        if !hasResend then Err(ChosenKeyMissing(Resend)) else Ok(Resend)
      else if explicit == "sendgrid" then
        if !hasSendgrid then Err(ChosenKeyMissing(SendGrid)) else Ok(SendGrid)
      else Err(UnknownProvider)
    else if hasResend then Ok(Resend)
    else if hasSendgrid then Ok(SendGrid)
    else Err(NoProvider)
  }

  /**
   * `Number(v)` on the values a request carries, `None` for `NaN`: a
   * number, a boolean, `null`, or a string holding an optionally signed
   * decimal integer (blank means 0).
   */
  function NumberOf(v: Json): Option<int>
  {
    match v
    case JNum(n) => Some(n)
    case JBool(b) => Some(if b then 1 else 0)
    case JNull => Some(0)
    case JStr(s) => IntegerLiteral(Text.Trim(s))
    case _ => None
  }

  function IntegerLiteral(t: string): Option<int>
  {
    if t == [] then Some(0)
    else
      var digits := Text.SignlessPart(t);
      if digits != [] && (forall i :: 0 <= i < |digits| ==> Text.IsDigit(digits[i])) then
        if t[0] == '-' then Some(0 - Text.DigitsValue(digits)) else Some(Text.DigitsValue(digits))
      else None
  }

  /** `Number.isFinite(n) ? Math.round(n) : 0` for an integer-valued `n` (`NaN` gives 0). */
  function FiniteOrZero(n: Option<int>): int
  {
    if n.Some? then n.value else 0
  }

  // ---------------------------------------------------------------------
  // Texts

  /** The invoice as the e-mail names it. */
  function Descriptor(invoiceNumber: string): (r: string)
    ensures invoiceNumber != "" ==> r == "invoice " + invoiceNumber
    ensures invoiceNumber == "" ==> r == "your invoice"
  {
    if invoiceNumber != "" then "invoice " + invoiceNumber else "your invoice"
  }

  function Subject(invoiceNumber: string): (r: string)
    ensures invoiceNumber != "" ==> r == "Payment link for " + invoiceNumber
    ensures invoiceNumber == "" ==> r == "Your payment link"
  {
    if invoiceNumber != "" then "Payment link for " + invoiceNumber else "Your payment link"
  }

  /** The name the greeting uses. */
  function GreetingName(clientName: string): (r: string)
    ensures r != ""
    ensures clientName != "" ==> r == clientName
    ensures clientName == "" ==> r == "there"
  {
    if clientName != "" then clientName else "there"
  }

  /** What a payment-link e-mail says; `Subject`, `EmailText` and `EmailHtml` render it. */
  datatype LinkMessage = LinkMessage(clientName: string, invoiceNumber: string, url: string)

  function EmailText(m: LinkMessage): string
  {
    "Hi " + GreetingName(m.clientName) + ",\n\n"
    + "As discussed on our call, here is your secure payment link for " + Descriptor(m.invoiceNumber) + ".\n\n"
    + m.url + "\n\n"
    + "Thank you."
  }

  function EmailHtml(m: LinkMessage): string
  {
    "<p>Hi " + GreetingName(m.clientName) + ",</p>"
    + "<p>As discussed on our call, here is your secure payment link for <strong>" + Descriptor(m.invoiceNumber) + "</strong>.</p>"
    + "<p><a href=\"" + m.url + "\">Pay securely now</a></p>"
    + "<p>If the button does not work, use this link:<br/>" + m.url + "</p>"
    + "<p>Thank you.</p>"
  }

  /** The plain-text e-mail greets the client (or "there") and carries the link itself. */
  lemma EmailTextCarriesLink(m: LinkMessage)
    ensures Text.StartsWith(EmailText(m), "Hi " + GreetingName(m.clientName) + ",")
    ensures Text.Contains(EmailText(m), m.url)
  {
    var head := "Hi " + GreetingName(m.clientName) + ",\n\n"
      + "As discussed on our call, here is your secure payment link for " + Descriptor(m.invoiceNumber) + ".\n\n";
    var t := EmailText(m);
    assert t == head + m.url + ("\n\n" + "Thank you.");
    assert Text.OccursAt(t, m.url, |head|);
    Text.ContainsIff(t, m.url);
    var g := "Hi " + GreetingName(m.clientName) + ",";
    assert t[..|g|] == g;
  }

  // ---------------------------------------------------------------------
  // Field resolution

  /** The columns read from the invoice row. */
  datatype InvoiceRow = InvoiceRow(
    invoiceNumber: Option<Json>, clientName: Option<Json>, clientEmail: Option<Json>, amount: Option<Json>)

  datatype Fields = Fields(
    invoiceId: string, invoiceNumber: string, clientName: string, clientEmail: string,
    callId: string, currency: string, amountCents: int)

  /** The amount the body asks for: `amount_cents`, else `amount`, else 0. */
  function BodyAmount(body: map<string, Json>): int
  {
    var raw := if "amount_cents" in body && !body["amount_cents"].JNull? then body["amount_cents"]
               else if "amount" in body && !body["amount"].JNull? then body["amount"]
               else JNum(0);
    FiniteOrZero(NumberOf(raw))
  }

  function InvoiceIdOf(body: map<string, Json>): string
  {
    ToSafeString(Get(Some(JObj(body)), "invoice_id"))
  }

  /** The fields as read from the body, before any fallback. */
  function BodyFields(body: map<string, Json>): (f: Fields)
    ensures f.invoiceId == InvoiceIdOf(body)
    ensures f.currency == Text.Lower(ToSafeString(Or(Get(Some(JObj(body)), "currency"), Some(JStr("eur")))))
  {
    var b := Some(JObj(body));
    Fields(
      InvoiceIdOf(body), ToSafeString(Get(b, "invoice_number")),
      ToSafeString(Get(b, "client_name")), ToSafeString(Get(b, "client_email")),
      ToSafeString(Get(b, "call_id")),
      Text.Lower(ToSafeString(Or(Get(b, "currency"), Some(JStr("eur"))))),
      BodyAmount(body))
  }

  /**
   * Lines 147-150: the invoice row fills only what the body left empty (or
   * a zero amount); the body's own values are kept.
   */
  function FillIn(f: Fields, row: InvoiceRow): (g: Fields)
    ensures g.invoiceId == f.invoiceId && g.callId == f.callId && g.currency == f.currency
    ensures g.invoiceNumber == if f.invoiceNumber != "" then f.invoiceNumber else ToSafeString(row.invoiceNumber)
    ensures g.clientName == if f.clientName != "" then f.clientName else ToSafeString(row.clientName)
    ensures g.clientEmail == if f.clientEmail != "" then f.clientEmail else ToSafeString(row.clientEmail)
    ensures g.amountCents == if f.amountCents != 0 then f.amountCents
                             else FiniteOrZero(NumberOf(Or(row.amount, Some(JNum(0))).value))
  {
    Fields(f.invoiceId,
      if f.invoiceNumber != "" then f.invoiceNumber else ToSafeString(row.invoiceNumber),
      if f.clientName != "" then f.clientName else ToSafeString(row.clientName),
      if f.clientEmail != "" then f.clientEmail else ToSafeString(row.clientEmail),
      f.callId, f.currency,
      if f.amountCents != 0 then f.amountCents else FiniteOrZero(NumberOf(Or(row.amount, Some(JNum(0))).value)))
  }

  /** The `if (!x) x = ...` assignments of lines 147-150, one field at a time. */
  method FillFromInvoice(f: Fields, row: InvoiceRow) returns (g: Fields)
    ensures g == FillIn(f, row)
  {
    g := f;
    if g.invoiceNumber == "" {
      g := g.(invoiceNumber := ToSafeString(row.invoiceNumber));
    }
    if g.clientName == "" {
      g := g.(clientName := ToSafeString(row.clientName));
    }
    if g.clientEmail == "" {
      g := g.(clientEmail := ToSafeString(row.clientEmail));
    }
    if g.amountCents == 0 {
      g := g.(amountCents := FiniteOrZero(NumberOf(Or(row.amount, Some(JNum(0))).value)));
    }
  }

  /** The fields the request goes on with: the body's, filled from the row when one was loaded. */
  function Resolved(body: map<string, Json>, invoice: Result<InvoiceRow, string>): (f: Fields)
    ensures f.invoiceId == InvoiceIdOf(body)
  {
    var b := BodyFields(body);
    if b.invoiceId != "" && invoice.Ok? then FillIn(b, invoice.value) else b
  }

  // ---------------------------------------------------------------------
  // The handler

  /**
   * What the payment processor is asked to create: the customer, the
   * price and the metadata of the invoice, and the site it returns to.
   * The display texts and the return URLs are derived from these.
   */
  datatype Checkout = Checkout(
    customerEmail: string, currency: string, unitAmount: int,
    invoiceId: string, invoiceNumber: string, clientName: string, callId: string,
    returnBase: string)

  function ProductName(c: Checkout): string
  {
    if c.invoiceNumber != "" then "Payment for " + c.invoiceNumber else "Invoice payment"
  }

  function ProductDescription(c: Checkout): Option<string>
  {
    if c.clientName != "" then Some("Requested for " + c.clientName) else None
  }

  function SuccessUrl(c: Checkout): string
  {
    c.returnBase + "/payments/success?session_id={CHECKOUT_SESSION_ID}"
  }

  function CancelUrl(c: Checkout): string
  {
    c.returnBase + "/payments/cancel"
  }

  /** The e-mail handed to a provider. */
  datatype Email = Email(provider: Provider, to: string, message: LinkMessage)

  /** The checkout URL written back onto the invoice row. */
  datatype StoredLink = StoredLink(invoiceId: string, url: string)

  /**
   * The outside calls one request makes. They happen in this order: the
   * invoice lookup, the checkout session, the update of the invoice, the
   * e-mail; `Ordered` says that nothing follows a checkout that was not
   * made.
   */
  datatype Calls = Calls(
    lookup: Option<string>, checkout: Option<Checkout>, stored: Option<StoredLink>, email: Option<Email>)

  predicate Ordered(c: Calls)
  {
    c.checkout.None? ==> c.stored.None? && c.email.None?
  }

  /** A mail provider's answer: its HTTP reply, or the reason its `fetch` rejected. */
  datatype HttpReply = HttpReply(ok: bool, status: int, detail: string) | Unreachable(reason: string)

  predicate Accepted(reply: HttpReply)
  {
    reply.HttpReply? && reply.ok
  }

  /**
   * The function's answer: `Sent` is the 200 reply with `success: true`,
   * `Failed` the 500 reply whose `error` is `Message` of the failure.
   */
  datatype Response =
    | Sent(paymentUrl: string, clientEmail: string, emailStatus: string)
    | Failed(error: Failure)

  /** The JSON body of the reply (lines 222-237). */
  function ResponseJson(r: Response): Json
  {
    match r
    case Sent(url, email, status) =>
      JObj(map["success" := JBool(true), "payment_url" := JStr(url), "client_email" := JStr(email),
               "email_status" := JStr(status)])
    case Failed(e) => JObj(map["success" := JBool(false), "error" := JStr(Message(e))])
  }

  function CheckoutFor(f: Fields, baseUrl: string): Checkout
  {
    Checkout(f.clientEmail, f.currency, f.amountCents,
      f.invoiceId, f.invoiceNumber, f.clientName, f.callId, baseUrl)
  }

  function ProviderKey(env: Env, p: Provider): Option<string>
  {
    if p == Resend then env.resendKey else env.sendgridKey
  }

  function EmailStatus(p: Provider): string
  {
    if p == Resend then "sent_via_resend" else "sent_via_sendgrid"
  }

  /** A mail can go out through `p`: a sender address and `p`'s key are configured. */
  predicate MailConfigured(env: Env, p: Provider)
  {
    EnvString(env.emailFrom) != "" && IsSet(ProviderKey(env, p))
  }

  /**
   * The outcome of `sendPaymentEmail` through `p`: the sender is checked
   * before the key, and the provider's answer decides the rest.
   */
  function MailStatus(env: Env, p: Provider, reply: HttpReply): (r: Result<string, Failure>)
    ensures r.Ok? <==> MailConfigured(env, p) && Accepted(reply)
    ensures r.Ok? ==> r.value == EmailStatus(p)
    ensures EnvString(env.emailFrom) == "" ==> r == Err(NoSender)
    ensures EnvString(env.emailFrom) != "" && !IsSet(ProviderKey(env, p)) ==> r == Err(KeyMissing(p))
    ensures MailConfigured(env, p) && reply.HttpReply? && !reply.ok ==> r == Err(Rejected(p, reply.status, reply.detail))
    ensures MailConfigured(env, p) && reply.Unreachable? ==> r == Err(Thrown(reply.reason))
  {
    if EnvString(env.emailFrom) == "" then Err(NoSender)
    else if !IsSet(ProviderKey(env, p)) then Err(KeyMissing(p))
    else match reply
      case Unreachable(reason) => Err(Thrown(reason))
      case HttpReply(ok, status, detail) => if ok then Ok(EmailStatus(p)) else Err(Rejected(p, status, detail))
  }

  /**
   * `sendPaymentEmail`: the sender address and the provider's key must be
   * configured before anything is sent, and the provider must accept the
   * message.
   */
  method SendPaymentEmail(env: Env, provider: Provider, to: string, message: LinkMessage, reply: HttpReply)
    returns (r: Result<string, Failure>, sent: Option<Email>)
    ensures sent.Some? <==> MailConfigured(env, provider)
    ensures sent.Some? ==> sent.value == Email(provider, to, message)
    ensures r == MailStatus(env, provider, reply)
  {
    sent := None;
    if EnvString(env.emailFrom) == "" {
      return Err(NoSender), sent;
    }
    if provider == Resend {
      if !IsSet(env.resendKey) {
        return Err(KeyMissing(Resend)), sent;
      }
    } else if !IsSet(env.sendgridKey) {
      return Err(KeyMissing(SendGrid)), sent;
    }
    sent := Some(Email(provider, to, message));
    if reply.Unreachable? {
      return Err(Thrown(reply.reason)), sent;
    }
    if !reply.ok {
      return Err(Rejected(provider, reply.status, reply.detail)), sent;
    }
    return Ok(EmailStatus(provider)), sent;
  }

  /** The database and payment-processor credentials are configured. */
  predicate Configured(env: Env)
  {
    IsSet(env.supabaseUrl) && IsSet(env.serviceRoleKey) && IsSet(env.stripeKey)
  }

  /**
   * The request body as `req.json()` leaves it: `None` for a JSON `null`,
   * otherwise the members of an object. A body that does not parse is the
   * empty object, and so is any other non-object value, on which every
   * `body.x` reads `undefined`.
   */
  type Body = Option<map<string, Json>>

  /** The invoice lookup, made when the credentials are there and the body names an invoice. */
  function Lookup(env: Env, body: Body): Option<string>
  {
    if Configured(env) && body.Some? && InvoiceIdOf(body.value) != "" then Some(InvoiceIdOf(body.value)) else None
  }

  /**
   * Lines 115-158, the checks before the checkout, in their order: the
   * database credentials, the processor key, a `null` body, the row load,
   * the e-mail address, the amount. A request passes exactly when all of
   * them do, and goes on with the resolved fields.
   */
  function Prepared(env: Env, body: Body, invoice: Result<InvoiceRow, string>): (r: Result<Fields, Failure>)
    ensures r.Ok? <==>
      && Configured(env) && body.Some? && (InvoiceIdOf(body.value) == "" || invoice.Ok?)
      && Resolved(body.value, invoice).clientEmail != "" && Resolved(body.value, invoice).amountCents > 0
    ensures r.Ok? ==> r.value == Resolved(body.value, invoice)
    ensures !IsSet(env.supabaseUrl) || !IsSet(env.serviceRoleKey) ==> r == Err(DatabaseCredentialsMissing)
    ensures IsSet(env.supabaseUrl) && IsSet(env.serviceRoleKey) && !IsSet(env.stripeKey) ==> r == Err(ProcessorKeyMissing)
    ensures Configured(env) && body.None? ==> r == Err(NullBody)
    ensures Configured(env) && body.Some? && InvoiceIdOf(body.value) != "" && invoice.Err? ==>
      r == Err(InvoiceLoadFailed(InvoiceIdOf(body.value), invoice.error))
    ensures Configured(env) && body.Some? && (InvoiceIdOf(body.value) == "" || invoice.Ok?) ==>
      (Resolved(body.value, invoice).clientEmail == "" ==> r == Err(NoClientEmail))
      && (Resolved(body.value, invoice).clientEmail != "" && Resolved(body.value, invoice).amountCents <= 0 ==>
          r == Err(InvalidAmount))
  {
    if !IsSet(env.supabaseUrl) || !IsSet(env.serviceRoleKey) then Err(DatabaseCredentialsMissing)
    else if !IsSet(env.stripeKey) then Err(ProcessorKeyMissing)
    else if body.None? then Err(NullBody)
    else if InvoiceIdOf(body.value) != "" && invoice.Err? then
      Err(InvoiceLoadFailed(InvoiceIdOf(body.value), invoice.error))
    else
      var f := Resolved(body.value, invoice);
      if f.clientEmail == "" then Err(NoClientEmail)
      else if f.amountCents <= 0 then Err(InvalidAmount)
      else Ok(f)
  }

  /** The steps of lines 115-158 as the handler takes them, with the lookup it makes. */
  method Prepare(env: Env, body: Body, invoice: Result<InvoiceRow, string>)
    returns (r: Result<Fields, Failure>, lookup: Option<string>)
    ensures lookup == Lookup(env, body)
    ensures r == Prepared(env, body, invoice)
  {
    lookup := None;
    if !IsSet(env.supabaseUrl) || !IsSet(env.serviceRoleKey) {
      return Err(DatabaseCredentialsMissing), lookup;
    }
    if !IsSet(env.stripeKey) {
      return Err(ProcessorKeyMissing), lookup;
    }
    if body.None? {
      return Err(NullBody), lookup;
    }
    var f := BodyFields(body.value);
    if f.invoiceId != "" {
      lookup := Some(f.invoiceId);
      if invoice.Err? {
        return Err(InvoiceLoadFailed(f.invoiceId, invoice.error)), lookup;
      }
      f := FillFromInvoice(f, invoice.value);
    }
    if f.clientEmail == "" {
      return Err(NoClientEmail), lookup;
    }
    if f.amountCents <= 0 {
      return Err(InvalidAmount), lookup;
    }
    return Ok(f), lookup;
  }

  /** The e-mail that carries the link `url` for the resolved fields `f`. */
  function LinkEmail(provider: Provider, f: Fields, url: string): (e: Email)
    ensures e.to == f.clientEmail && e.message.url == url
  {
    Email(provider, f.clientEmail, LinkMessage(f.clientName, f.invoiceNumber, url))
  }

  /**
   * The outcome of lines 200-220: a provider that does not resolve fails
   * first; otherwise the mail through it decides.
   */
  function NotifyStatus(env: Env, mail: HttpReply): (r: Result<string, Failure>)
    ensures ResolveEmailProvider(env).Err? ==> r == Err(ResolveEmailProvider(env).error)
    ensures r.Ok? <==> ResolveEmailProvider(env).Ok? && MailConfigured(env, ResolveEmailProvider(env).value) && Accepted(mail)
    ensures r.Ok? ==> r.value == EmailStatus(ResolveEmailProvider(env).value)
  {
    var provider := ResolveEmailProvider(env);
    if provider.Err? then Err(provider.error) else MailStatus(env, provider.value, mail)
  }

  /** A mail goes out exactly when the provider resolves and can send; it is the link e-mail. */
  predicate NotifySent(env: Env, f: Fields, url: string, sent: Option<Email>)
  {
    var provider := ResolveEmailProvider(env);
    && (sent.Some? <==> provider.Ok? && MailConfigured(env, provider.value))
    && (sent.Some? ==> sent.value == LinkEmail(provider.value, f, url))
  }

  /** Lines 200-220: choose the provider, then send the link e-mail through it. */
  method Notify(env: Env, f: Fields, url: string, mail: HttpReply) returns (status: Result<string, Failure>, sent: Option<Email>)
    ensures status == NotifyStatus(env, mail)
    ensures NotifySent(env, f, url, sent)
  {
    var provider := ResolveEmailProvider(env);
    if provider.Err? {
      return Err(provider.error), None;
    }
    var e := LinkEmail(provider.value, f, url);
    status, sent := SendPaymentEmail(env, provider.value, e.to, e.message, mail);
  }

  /** `session.url`, "" when the processor returned none. */
  function SessionUrl(session: Result<Option<string>, string>): string
  {
    if session.Ok? && session.value.Some? then session.value.value else ""
  }

  /**
   * The answer after a passed check (lines 162-230): a thrown checkout,
   * then a missing session URL, then the e-mail step fail in that order;
   * otherwise the reply echoes the URL, the address and the mail status.
   */
  function Delivered(env: Env, f: Fields, session: Result<Option<string>, string>, mail: HttpReply): (r: Response)
    ensures r.Sent? <==> session.Ok? && SessionUrl(session) != "" && NotifyStatus(env, mail).Ok?
    ensures r.Sent? ==> r == Sent(SessionUrl(session), f.clientEmail, NotifyStatus(env, mail).value)
    ensures session.Err? ==> r == Failed(Thrown(session.error))
    ensures session.Ok? && SessionUrl(session) == "" ==> r == Failed(NoSessionUrl)
    ensures session.Ok? && SessionUrl(session) != "" && NotifyStatus(env, mail).Err? ==>
      r == Failed(NotifyStatus(env, mail).error)
  {
    if session.Err? then Failed(Thrown(session.error))
    else if SessionUrl(session) == "" then Failed(NoSessionUrl)
    else
      var status := NotifyStatus(env, mail);
      if status.Err? then Failed(status.error) else Sent(SessionUrl(session), f.clientEmail, status.value)
  }

  /**
   * Lines 160-230: the checkout session, the stored link and the e-mail.
   * The checkout is always requested; the rest only once it has returned
   * a URL.
   */
  method Deliver(env: Env, f: Fields, session: Result<Option<string>, string>, mail: HttpReply)
    returns (resp: Response, stored: Option<StoredLink>, sent: Option<Email>)
    ensures resp == Delivered(env, f, session, mail)
    ensures stored == if f.invoiceId != "" && SessionUrl(session) != "" then Some(StoredLink(f.invoiceId, SessionUrl(session))) else None
    ensures SessionUrl(session) == "" ==> sent.None?
    ensures SessionUrl(session) != "" ==> NotifySent(env, f, SessionUrl(session), sent)
    ensures resp.Sent? ==> sent.Some? && sent.value.to == resp.clientEmail && sent.value.message.url == resp.paymentUrl
  {
    if session.Err? {
      return Failed(Thrown(session.error)), None, None;
    }
    if session.value.None? || session.value.value == "" {
      return Failed(NoSessionUrl), None, None;
    }
    var url := session.value.value;
    stored := if f.invoiceId != "" then Some(StoredLink(f.invoiceId, url)) else None;
    var status;
    status, sent := Notify(env, f, url, mail);
    if status.Err? {
      return Failed(status.error), stored, sent;
    }
    resp := Sent(url, f.clientEmail, status.value);
  }

  /**
   * The request handler. `invoice` is the answer of the invoice lookup (an
   * error message, or the row), `session` the checkout session's URL or
   * the processor's error, `mail` the mail API's answer. Every thrown
   * error becomes a 500 answer carrying its message.
   */
  method Handle(env: Env, body: Body, invoice: Result<InvoiceRow, string>,
                session: Result<Option<string>, string>, mail: HttpReply)
    returns (resp: Response, calls: Calls)
    ensures var p := Prepared(env, body, invoice);
      resp == if p.Err? then Failed(p.error) else Delivered(env, p.value, session, mail)
    ensures resp.Sent? <==> Prepared(env, body, invoice).Ok? && session.Ok? && SessionUrl(session) != "" && NotifyStatus(env, mail).Ok?
    ensures Ordered(calls)
    ensures calls.lookup == Lookup(env, body)
    ensures var p := Prepared(env, body, invoice);
      calls.checkout == if p.Ok? then Some(CheckoutFor(p.value, AppBaseUrl(env))) else None
    ensures !Configured(env) ==> resp.Failed? && calls.checkout.None?
    ensures calls.checkout.Some? ==> calls.checkout.value.customerEmail != "" && calls.checkout.value.unitAmount > 0
    ensures var p := Prepared(env, body, invoice);
      calls.stored == if p.Ok? && p.value.invoiceId != "" && SessionUrl(session) != ""
                      then Some(StoredLink(p.value.invoiceId, SessionUrl(session))) else None
    ensures calls.stored.Some? ==> body.Some? && calls.stored.value.invoiceId == InvoiceIdOf(body.value) && InvoiceIdOf(body.value) != ""
    ensures resp.Sent? ==> (resp.clientEmail != "" && calls.email.Some? && calls.email.value.to == resp.clientEmail
      && calls.email.value.message.url == resp.paymentUrl)
  {
    var prepared, lookup := Prepare(env, body, invoice);
    if prepared.Err? {
      return Failed(prepared.error), Calls(lookup, None, None, None);
    }
    var f := prepared.value;
    var stored, sent;
    resp, stored, sent := Deliver(env, f, session, mail);
    calls := Calls(lookup, Some(CheckoutFor(f, AppBaseUrl(env))), stored, sent);
  }

  // ---------------------------------------------------------------------
  // Properties

  /** Without an explicit provider, Resend wins whenever its key is set. */
  lemma ResendPreferred(env: Env)
    requires env.emailProvider.None? && IsSet(env.resendKey)
    ensures ResolveEmailProvider(env) == Ok(Resend)
  {
    assert EnvString(None) == "";
  }

  /** Stripping trailing slashes twice is stripping them once. */
  lemma {:induction false} StripIdempotent(s: string)
    ensures StripTrailingSlashes(StripTrailingSlashes(s)) == StripTrailingSlashes(s)
  {
    var r := StripTrailingSlashes(s);
    assert r == [] || r[|r| - 1] != '/';
  }

  /** A decimal amount string in the body is the amount charged. */
  lemma DecimalAmount(body: map<string, Json>, n: nat)
    requires "amount_cents" in body && body["amount_cents"] == JStr(Text.NatToString(n))
    ensures BodyAmount(body) == n
  {
    NumberOfDecimal(n);
  }

  lemma NumberOfDecimal(n: nat)
    ensures NumberOf(JStr(Text.NatToString(n))) == Some(n)
  {
    var s := Text.NatToString(n);
    var t := Text.Trim(s);
    assert t == s by {
      Text.TrimDigits(s);
    }
    var v := Text.DigitsValue(s);
    assert IntegerLiteral(s) == Some(v) by {
      IntegerLiteralOfDigits(s);
    }
    assert v == n by {
      Text.NatToStringValue(n);
    }
    assert NumberOf(JStr(s)) == IntegerLiteral(t);
  }

  lemma IntegerLiteralOfDigits(s: string)
    requires s != [] && forall i :: 0 <= i < |s| ==> Text.IsDigit(s[i])
    ensures IntegerLiteral(s) == Some(Text.DigitsValue(s))
  {
    assert Text.IsDigit(s[0]);
    assert Text.SignlessPart(s) == s;
  }
}
