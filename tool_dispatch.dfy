/**
 * The bridge's answer to a `client_tool_call` from the voice agent
 * (twilio-media-stream/index.ts): which downstream action is called with
 * which request body, and the one `client_tool_result` sent back. The
 * downstream HTTP call is an input: the JSON it answered, or a transport
 * failure (network error or a reply that is not JSON).
 */
module ToolDispatch {
  import opened Wrappers
  import opened JsonValues
  import Text
  import PaymentLink

  datatype Outcome = Reply(body: Json) | TransportError

  datatype ToolResult = ToolResult(toolCallId: Option<Json>, result: string, isError: bool)

  /** Body of the charge request (process-card-payment); `None` fields are omitted by JSON.stringify. */
  datatype ChargeRequest = ChargeRequest(
    cardNumber: Option<Json>, expMonth: Option<Json>, expYear: Option<Json>, cvc: Option<Json>,
    invoiceId: Option<Json>, amount: Option<Json>, clientName: Option<Json>)

  /** Body of the payment-link request (send-payment-link). */
  datatype LinkRequest = LinkRequest(
    invoiceId: Option<Json>, invoiceNumber: Option<Json>, clientName: Option<Json>,
    clientEmail: Option<Json>, amountCents: Option<Json>, currency: Option<Json>, callId: Option<Json>)

  datatype ToolRequest = Charge(charge: ChargeRequest) | SendLink(link: LinkRequest)

  const PAYMENT_TOOL := "process_payment"
  const LINK_TOOLS: seq<string> := ["send_payment_link", "send_payment_invoice", "send_invoice_payment_link"]

  const PAYMENT_TECHNICAL_ERROR := "Payment processing failed due to a technical error. Please try again later."
  const LINK_TECHNICAL_ERROR := "Payment link sending failed due to a technical error."

  /**
   * `customParams.key`, where `customParams` is the stream's
   * `customParameters` (or `{}` when that was falsy).
   */
  function Custom(custom: Json, key: string): (r: Option<Json>)
    ensures r.Some? <==> custom.JObj? && key in custom.fields
  {
    Get(Some(custom), key)
  }

  predicate IsPaymentTool(toolName: Option<Json>)
  {
    IsString(toolName, PAYMENT_TOOL)
  }

  /** `[...].includes(tool_name)`: one of the three accepted link-tool names. */
  predicate IsLinkTool(toolName: Option<Json>)
  {
    toolName.Some? && toolName.value.JStr? && toolName.value.s in LINK_TOOLS
  }

  /**
   * `parameters.amount_cents || parseInt(String(customParams.amountCents || "0"))`;
   * a `NaN` from parseInt is serialised as `null`.
   */
  function AmountCents(parameters: Option<Json>, custom: Json): Option<Json>
  {
    var agent := Get(parameters, "amount_cents");
    if Truthy(agent) then agent
    else
      match Text.ParseInt(ToText(Or(Custom(custom, "amountCents"), Some(JStr("0")))))
      case Some(n) => Some(JNum(n))
      case None => Some(JNull)
  }

  /** The request body of `process_payment`: card fields from the agent, invoice and name from the session first. */
  function ChargeRequestOf(parameters: Option<Json>, custom: Json): (req: ChargeRequest)
    ensures req.cardNumber == Get(parameters, "card_number") && req.expMonth == Get(parameters, "exp_month")
    ensures req.expYear == Get(parameters, "exp_year") && req.cvc == Get(parameters, "cvc")
    ensures Truthy(Custom(custom, "invoiceId")) ==> req.invoiceId == Custom(custom, "invoiceId")
    ensures !Truthy(Custom(custom, "invoiceId")) ==> req.invoiceId == Get(parameters, "invoice_id")
    ensures Truthy(Custom(custom, "clientName")) ==> req.clientName == Custom(custom, "clientName")
    ensures !Truthy(Custom(custom, "clientName")) ==> req.clientName == Get(parameters, "client_name")
    ensures Truthy(Get(parameters, "amount_cents")) ==> req.amount == Get(parameters, "amount_cents")
    ensures !Truthy(Get(parameters, "amount_cents")) && !Truthy(Custom(custom, "amountCents"))
      ==> req.amount == Some(JNum(0))
  {
    assert Text.ParseInt("0") == Some(0) by {
      Text.ParseIntOfNat(0);
    }
    ChargeRequest(
      Get(parameters, "card_number"), Get(parameters, "exp_month"), Get(parameters, "exp_year"),
      Get(parameters, "cvc"),
      Or(Custom(custom, "invoiceId"), Get(parameters, "invoice_id")),
      AmountCents(parameters, custom),
      Or(Custom(custom, "clientName"), Get(parameters, "client_name")))
  }

  /** The request body of the link tools: session values first, except the amount and the currency. */
  function LinkRequestOf(parameters: Option<Json>, custom: Json): (req: LinkRequest)
    ensures Truthy(Custom(custom, "invoiceId")) ==> req.invoiceId == Custom(custom, "invoiceId")
    ensures !Truthy(Custom(custom, "invoiceId")) ==> req.invoiceId == Get(parameters, "invoice_id")
    ensures Truthy(Custom(custom, "invoiceNumber")) ==> req.invoiceNumber == Custom(custom, "invoiceNumber")
    ensures !Truthy(Custom(custom, "invoiceNumber")) ==> req.invoiceNumber == Get(parameters, "invoice_number")
    ensures Truthy(Custom(custom, "clientName")) ==> req.clientName == Custom(custom, "clientName")
    ensures !Truthy(Custom(custom, "clientName")) ==> req.clientName == Get(parameters, "client_name")
    ensures Truthy(Custom(custom, "clientEmail")) ==> req.clientEmail == Custom(custom, "clientEmail")
    ensures !Truthy(Custom(custom, "clientEmail")) ==> req.clientEmail == Get(parameters, "client_email")
    ensures Truthy(Custom(custom, "callId")) ==> req.callId == Custom(custom, "callId")
    ensures !Truthy(Custom(custom, "callId")) ==> req.callId == Get(parameters, "call_id")
    ensures Truthy(Get(parameters, "amount_cents")) ==> req.amountCents == Get(parameters, "amount_cents")
    ensures !Truthy(Get(parameters, "amount_cents")) && !Truthy(Custom(custom, "amountCents"))
      ==> req.amountCents == Some(JNum(0))
    ensures Truthy(Get(parameters, "currency")) ==> req.currency == Get(parameters, "currency")
    ensures !Truthy(Get(parameters, "currency")) ==> req.currency == Some(JStr("eur"))
  {
    assert Text.ParseInt("0") == Some(0) by {
      Text.ParseIntOfNat(0);
    }
    LinkRequest(
      Or(Custom(custom, "invoiceId"), Get(parameters, "invoice_id")),
      Or(Custom(custom, "invoiceNumber"), Get(parameters, "invoice_number")),
      Or(Custom(custom, "clientName"), Get(parameters, "client_name")),
      Or(Custom(custom, "clientEmail"), Get(parameters, "client_email")),
      AmountCents(parameters, custom),
      Or(Get(parameters, "currency"), Some(JStr("eur"))),
      Or(Custom(custom, "callId"), Get(parameters, "call_id")))
  }

  /**
   * The downstream request a tool call makes, if any: none for an unknown
   * tool name, and none when `parameters` is missing or null (building the
   * body throws before the fetch).
   */
  function RequestOf(toolName: Option<Json>, parameters: Option<Json>, custom: Json): (r: Option<ToolRequest>)
    ensures r.Some? <==> (IsPaymentTool(toolName) || IsLinkTool(toolName)) && !AccessThrows(parameters)
    ensures r.Some? && IsPaymentTool(toolName) ==> r.value == Charge(ChargeRequestOf(parameters, custom))
    ensures r.Some? && IsLinkTool(toolName) ==> r.value == SendLink(LinkRequestOf(parameters, custom))
  {
    if AccessThrows(parameters) then None
    else if IsPaymentTool(toolName) then Some(Charge(ChargeRequestOf(parameters, custom)))
    else if IsLinkTool(toolName) then Some(SendLink(LinkRequestOf(parameters, custom)))
    else None
  }

  /** The result of `process_payment` once the body was built and the call answered. */
  function PaymentResult(id: Option<Json>, reply: Json): ToolResult
  {
    var r := Some(reply);
    if AccessThrows(r) then ToolResult(id, PAYMENT_TECHNICAL_ERROR, true)
    else if Truthy(Get(r, "success")) then
      ToolResult(id, "Payment successful! " + ToText(Get(r, "message")), false)
    else
      ToolResult(id, "Payment failed: " + ToText(Or(Get(r, "error"), Get(r, "message"))), true)
  }

  /** The result of a link tool once the body was built and the call answered. */
  function LinkResult(id: Option<Json>, reply: Json): ToolResult
  {
    var r := Some(reply);
    if AccessThrows(r) then ToolResult(id, LINK_TECHNICAL_ERROR, true)
    else if Truthy(Get(r, "success")) then
      ToolResult(id, "Payment link sent to " + ToText(Get(r, "client_email")) + ".", false)
    else
      ToolResult(id, "Could not send payment link: " + ToText(Or(Get(r, "error"), Some(JStr("Unknown error")))), true)
  }

  /**
   * The `client_tool_result` for one tool call: exactly one for the payment
   * tool and the link aliases, none for any other name. Unreadable
   * parameters, a failed call and a `null` reply (whose `.success` throws)
   * all give the tool's technical-error text; any other reply gives the
   * success or failure text of the tool, an error exactly when `success`
   * is falsy.
   */
  function Dispatch(toolName: Option<Json>, toolCallId: Option<Json>, parameters: Option<Json>,
                    custom: Json, outcome: Outcome): (r: Option<ToolResult>)
    ensures r.Some? <==> IsPaymentTool(toolName) || IsLinkTool(toolName)
    ensures r.Some? ==> r.value.toolCallId == toolCallId
    ensures r.Some? && (AccessThrows(parameters) || outcome.TransportError? || outcome.body.JNull?) ==>
      r.value.isError && r.value.result == (if IsPaymentTool(toolName) then PAYMENT_TECHNICAL_ERROR else LINK_TECHNICAL_ERROR)
    ensures r.Some? && !AccessThrows(parameters) && outcome.Reply? && !outcome.body.JNull? ==>
      r.value.isError == !Truthy(Get(Some(outcome.body), "success"))
    ensures IsPaymentTool(toolName) && !AccessThrows(parameters) && outcome.Reply? && !outcome.body.JNull? ==>
        var reply := Some(outcome.body);
        r.value.result == if Truthy(Get(reply, "success")) then "Payment successful! " + ToText(Get(reply, "message"))
                          else "Payment failed: " + ToText(Or(Get(reply, "error"), Get(reply, "message")))
    ensures IsLinkTool(toolName) && !AccessThrows(parameters) && outcome.Reply? && !outcome.body.JNull? ==>
        var reply := Some(outcome.body);
        r.value.result == if Truthy(Get(reply, "success")) then "Payment link sent to " + ToText(Get(reply, "client_email")) + "."
                          else "Could not send payment link: " + ToText(Or(Get(reply, "error"), Some(JStr("Unknown error"))))
  {
    if IsPaymentTool(toolName) then
      if AccessThrows(parameters) || outcome.TransportError? then Some(ToolResult(toolCallId, PAYMENT_TECHNICAL_ERROR, true))
      else Some(PaymentResult(toolCallId, outcome.body))
    else if IsLinkTool(toolName) then
      if AccessThrows(parameters) || outcome.TransportError? then Some(ToolResult(toolCallId, LINK_TECHNICAL_ERROR, true))
      else Some(LinkResult(toolCallId, outcome.body))
    else None
  }

  /** Without an agent amount, a decimal `amountCents` session parameter is the amount sent. */
  lemma SessionAmountUsed(parameters: Option<Json>, custom: Json, n: nat)
    requires !Truthy(Get(parameters, "amount_cents")) && n > 0
    requires Custom(custom, "amountCents") == Some(JStr(Text.NatToString(n)))
    ensures ChargeRequestOf(parameters, custom).amount == Some(JNum(n))
    ensures LinkRequestOf(parameters, custom).amountCents == Some(JNum(n))
  {
    Text.ParseIntOfNat(n);
  }

  /** The payment tool and the link tools are distinct names, so at most one action runs per call. */
  lemma ToolsDisjoint(toolName: Option<Json>)
    ensures !(IsPaymentTool(toolName) && IsLinkTool(toolName))
  {
    if IsPaymentTool(toolName) {
      assert toolName.value.s == PAYMENT_TOOL;
      assert PAYMENT_TOOL !in LINK_TOOLS;
    }
  }

  /** A declined card is reported as an error that quotes the decline reason. */
  lemma DeclinedCardReported(id: Option<Json>, parameters: Json, custom: Json)
    requires !parameters.JNull?
    ensures var reply := JObj(map["success" := JBool(false), "error" := JStr("card declined")]);
      Dispatch(Some(JStr(PAYMENT_TOOL)), id, Some(parameters), custom, Reply(reply))
        == Some(ToolResult(id, "Payment failed: card declined", true))
  {
    var reply := JObj(map["success" := JBool(false), "error" := JStr("card declined")]);
    assert Get(Some(reply), "success") == Some(JBool(false));
    assert Get(Some(reply), "error") == Some(JStr("card declined"));
    assert "Payment failed: " + "card declined" == "Payment failed: card declined";
  }

  /**
   * Relayed to the agent, the payment-link function's own reply reads as
   * "sent to" the address it used, or as its error message ("Unknown error"
   * for an empty one).
   */
  lemma LinkReplyRelayed(toolName: Option<Json>, id: Option<Json>, parameters: Option<Json>, custom: Json,
                         resp: PaymentLink.Response)
    requires IsLinkTool(toolName) && !AccessThrows(parameters)
    ensures var m := if resp.Failed? then PaymentLink.Message(resp.error) else "";
      Dispatch(toolName, id, parameters, custom, Reply(PaymentLink.ResponseJson(resp))) == Some(ToolResult(id,
        if resp.Sent? then "Payment link sent to " + resp.clientEmail + "."
        else "Could not send payment link: " + (if m != "" then m else "Unknown error"),
        resp.Failed?))
  {
    ToolsDisjoint(toolName);
    match resp
    case Sent(url, email, status) =>
      LinkSentRelayed(toolName, id, parameters, custom, url, email, status);
    case Failed(e) =>
      LinkFailedRelayed(toolName, id, parameters, custom, PaymentLink.Message(e));
  }

  lemma LinkSentRelayed(toolName: Option<Json>, id: Option<Json>, parameters: Option<Json>, custom: Json,
                        url: string, email: string, status: string)
    requires IsLinkTool(toolName) && !IsPaymentTool(toolName) && !AccessThrows(parameters)
    ensures Dispatch(toolName, id, parameters, custom, Reply(PaymentLink.ResponseJson(PaymentLink.Sent(url, email, status))))
      == Some(ToolResult(id, "Payment link sent to " + email + ".", false))
  {
    var body := PaymentLink.ResponseJson(PaymentLink.Sent(url, email, status));
    assert Get(Some(body), "success") == Some(JBool(true));
    assert Get(Some(body), "client_email") == Some(JStr(email));
  }

  lemma LinkFailedRelayed(toolName: Option<Json>, id: Option<Json>, parameters: Option<Json>, custom: Json, m: string)
    requires IsLinkTool(toolName) && !IsPaymentTool(toolName) && !AccessThrows(parameters)
    ensures Dispatch(toolName, id, parameters, custom, Reply(JObj(map["success" := JBool(false), "error" := JStr(m)])))
      == Some(ToolResult(id, "Could not send payment link: " + (if m != "" then m else "Unknown error"), true))
  {
    var body := JObj(map["success" := JBool(false), "error" := JStr(m)]);
    assert Get(Some(body), "success") == Some(JBool(false));
    assert Get(Some(body), "error") == Some(JStr(m));
  }
}
