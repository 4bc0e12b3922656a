/** Request and response shaping around the GhostsPay `/transactions` call, shared by
    the Express route (backend/server.js) and the serverless handler (api/checkout.js).
    The HTTP exchange itself is an input: the gateway's reply is a parameter. */
module Gateway {
  import opened Wrappers
  import opened Js
  import opened Http
  import opened Cart
  import opened Pricing

  /** The `cart` field of a checkout body: absent or falsy, some non-array value, or an array. */
  datatype CartField = NoCart | NotAnArray | CartArray(items: seq<CartItem>)

  /** The destructured checkout body `{ cart, customer, paymentMethod, bumpAdded }`.
      The client also sends a shipping block, which neither handler reads. */
  datatype CheckoutBody = CheckoutBody(cart: CartField, customer: Json, paymentMethod: Json, bumpAdded: Json)

  /** Server-side configuration; "" stands for an unset environment variable. */
  datatype Config = Config(secretKey: string, companyId: string, postbackUrl: string)

  /** The guard `!cart || !Array.isArray(cart) || cart.length === 0`: the accepted lines, or None. */
  function AcceptedCart(field: CartField): (r: Option<seq<CartItem>>)
    ensures r.Some? <==> field.CartArray? && |field.items| > 0
    ensures r.Some? ==> r.value == field.items
  {
    match field
    case CartArray(items) => if |items| == 0 then None else Some(items)
    case _ => None
  }

  /** The 400 both handlers send for a missing, non-array or empty cart. */
  function InvalidCart(): Response {
    Response(400, ErrorBody("Carrinho vazio ou inválido"))
  }

  datatype GatewayItem = GatewayItem(title: string, unitPrice: int, quantity: int, externalRef: string)

  /** `item.productId || item.id` */
  function ExternalRef(item: CartItem): string {
    if item.productId != "" then item.productId else item.id
  }

  /** `{ title: item.name, unitPrice: Math.round(Number(item.price) * 100),
        quantity: item.qty || 1, externalRef: item.productId || item.id }` */
  function ToGatewayItem(item: CartItem): GatewayItem {
    GatewayItem(item.name, item.price, EffectiveQty(item.qty), ExternalRef(item))
  }

  /** `cart.map(...)`: one gateway line per cart line, in order. */
  function GatewayItems(cart: seq<CartItem>): (r: seq<GatewayItem>)
    ensures |r| == |cart|
    ensures forall i :: 0 <= i < |cart| ==>
      && r[i].title == cart[i].name
      && r[i].unitPrice == cart[i].price
      && r[i].quantity == (if cart[i].qty == 0 then 1 else cart[i].qty)
      && r[i].quantity != 0
      && r[i].externalRef == (if cart[i].productId != "" then cart[i].productId else cart[i].id)
    decreases |cart|
  {
    if |cart| == 0 then [] else [ToGatewayItem(cart[0])] + GatewayItems(cart[1..])
  }

  /** What the gateway's line items add up to. */
  function ItemsTotal(items: seq<GatewayItem>): int
    decreases |items|
  {
    if |items| == 0 then 0 else items[0].unitPrice * items[0].quantity + ItemsTotal(items[1..])
  }

  /** The line items sent to the gateway add up to the subtotal that was priced. */
  lemma {:induction false} ItemsTotalIsSubtotal(cart: seq<CartItem>)
    ensures ItemsTotal(GatewayItems(cart)) == Subtotal(cart)
    decreases |cart|
  {
    if |cart| > 0 {
      assert GatewayItems(cart)[1..] == GatewayItems(cart[1..]);
      ItemsTotalIsSubtotal(cart[1..]);
    }
  }

  datatype CustomerBlock = CustomerBlock(name: Json, email: Json)

  /** `{ name: customer?.name || defaultName, email: customer?.email || defaultEmail }` */
  function CustomerWithDefaults(customer: Json, defaultName: string, defaultEmail: string): (r: CustomerBlock)
    requires defaultName != "" && defaultEmail != ""
    ensures Truthy(r.name) && Truthy(r.email)
    ensures Truthy(OptMember(customer, "name")) ==> r.name == OptMember(customer, "name")
    ensures !Truthy(OptMember(customer, "name")) ==> r.name == Str(defaultName)
    ensures Truthy(OptMember(customer, "email")) ==> r.email == OptMember(customer, "email")
    ensures !Truthy(OptMember(customer, "email")) ==> r.email == Str(defaultEmail)
  {
    CustomerBlock(Or(OptMember(customer, "name"), Str(defaultName)),
                  Or(OptMember(customer, "email"), Str(defaultEmail)))
  }

  /** The JSON body POSTed to `/transactions` (installments is always 1). */
  datatype Payload = Payload(
    amount: int,
    description: string,
    paymentMethod: Json,
    installments: int,
    postbackUrl: string,
    companyId: string,
    customer: CustomerBlock,
    items: seq<GatewayItem>,
    bumpAdded: bool,
    source: string)

  /** The gateway's reply body: JSON text, or text that `JSON.parse` rejects. */
  datatype ReplyBody = JsonText(value: Json) | PlainText(raw: string)

  /** The gateway exchange: a status and a body, or a `fetch` that rejects or a body that
      `response.text()` fails to read, which both land in the handler's catch. */
  datatype GatewayReply = GatewayReply(status: int, body: ReplyBody) | GatewayUnreachable

  /** `ghostData`: the parsed body, or `{ raw: text }` when the text is not JSON. */
  function GhostData(body: ReplyBody): Json {
    match body
    case JsonText(v) => v
    case PlainText(t) => Obj(map["raw" := Str(t)])
  }

  /** What a handler did: its reply, and the payload it sent to the gateway, if any. */
  datatype Outcome = Outcome(response: Response, sent: Option<Payload>)

  /** `ghostData.message || ghostData.error || ghostData.raw || fallback`; None when
      `ghostData` is null, where reading `.message` throws. */
  function ErrorText(g: Json, fallback: string): (r: Option<Json>)
    requires fallback != ""
    ensures r.None? <==> Nullish(g)
    ensures r.Some? ==> Truthy(r.value)
    ensures r.Some? && Truthy(OptMember(g, "message")) ==> r.value == OptMember(g, "message")
    ensures r.Some? && !Truthy(OptMember(g, "message")) && Truthy(OptMember(g, "error")) ==>
      r.value == OptMember(g, "error")
    ensures r.Some? && !Truthy(OptMember(g, "message")) && !Truthy(OptMember(g, "error")) ==>
      (Truthy(OptMember(g, "raw")) ==> r.value == OptMember(g, "raw")) &&
      (!Truthy(OptMember(g, "raw")) ==> r.value == Str(fallback))
  {
    if Nullish(g) then None
    else Some(Or(Or(Or(OptMember(g, "message"), OptMember(g, "error")), OptMember(g, "raw")), Str(fallback)))
  }

  /** A non-JSON error reply surfaces its own text as the error message. */
  lemma PlainTextErrorSurfaces(text: string, fallback: string)
    requires fallback != "" && text != ""
    ensures ErrorText(GhostData(PlainText(text)), fallback) == Some(Str(text))
  {
  }

  /** The reply to a non-ok gateway status:
      `{ ok: false, error, gatewayStatus, gatewayResponse }` under the gateway's own status. */
  function GatewayFailure(status: int, g: Json, fallback: string): (r: Response)
    requires fallback != "" && !Nullish(g)
    ensures r.status == status
    ensures OptMember(r.body, "ok") == Bool(false)
    ensures OptMember(r.body, "error") == ErrorText(g, fallback).value
    ensures OptMember(r.body, "gatewayStatus") == Num(status)
    ensures OptMember(r.body, "gatewayResponse") == g
  {
    Response(status, Obj(map[
      "ok" := Bool(false),
      "error" := ErrorText(g, fallback).value,
      "gatewayStatus" := Num(status),
      "gatewayResponse" := g]))
  }

  /** `ghostData.amount || amountInCents` */
  function PixAmount(g: Json, amountInCents: int): (r: Json)
    ensures Truthy(OptMember(g, "amount")) ==> r == OptMember(g, "amount")
    ensures !Truthy(OptMember(g, "amount")) ==> r == Num(amountInCents)
  {
    Or(OptMember(g, "amount"), Num(amountInCents))
  }
}
