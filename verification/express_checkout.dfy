/** The Express route `POST /api/checkout` of backend/server.js. `express.json()` has
    already turned the request into an object, so the body arrives destructured. */
module ExpressCheckout {
  import opened Wrappers
  import opened Js
  import opened Http
  import opened Cart
  import opened Pricing
  import opened Gateway

  const DefaultPostbackUrl: string := "http://localhost:4000/api/ghostspay/webhook"
  const FailureFallback: string := "Falha ao criar pagamento na GhostsPay"

  /** `process.env.GHOSTS_POSTBACK_URL || 'http://localhost:4000/api/ghostspay/webhook'` */
  function PostbackUrl(config: Config): string {
    if config.postbackUrl != "" then config.postbackUrl else DefaultPostbackUrl
  }

  /** The `ghostsPayload` object literal of the route. */
  function BuildPayload(cart: seq<CartItem>, body: CheckoutBody, config: Config): Payload {
    Payload(
      ComputeTotals(cart, Truthy(body.bumpAdded)).amountInCents,
      "Compra na Pink Store",
      Str("PIX"),
      1,
      PostbackUrl(config),
      config.companyId,
      CustomerWithDefaults(body.customer, "Cliente", "cliente@email.com"),
      GatewayItems(cart),
      Truthy(body.bumpAdded),
      "pink-store-frontend")
  }

  /** `{ ok: true, payment, gatewayStatus, pix: { qrcode, expirationDate, amount }, status }` */
  function SuccessBody(g: Json, status: int, amountInCents: int): (r: Json)
    ensures OptMember(r, "ok") == Bool(true)
    ensures OptMember(r, "payment") == g
    ensures OptMember(r, "status") == OptMember(g, "status")
    ensures OptMember(OptMember(r, "pix"), "amount") == PixAmount(g, amountInCents)
    ensures OptMember(OptMember(r, "pix"), "qrcode") == Or(OptMember(OptMember(g, "pix"), "qrcode"), Null)
    ensures OptMember(OptMember(r, "pix"), "expirationDate") == Or(OptMember(OptMember(g, "pix"), "expirationDate"), Null)
    ensures OptMember(r, "gatewayStatus") == Num(status)
  {
    var pix := OptMember(g, "pix");
    Obj(map[
      "ok" := Bool(true),
      "payment" := g,
      "gatewayStatus" := Num(status),
      "pix" := Obj(map[
        "qrcode" := Or(OptMember(pix, "qrcode"), Null),
        "expirationDate" := Or(OptMember(pix, "expirationDate"), Null),
        "amount" := PixAmount(g, amountInCents)]),
      "status" := OptMember(g, "status")])
  }

  /** The whole route: cart guard, pricing, payload, one gateway call, reply shaping. A
      gateway that cannot be reached, and a null JSON reply (reading `ghostData.message`
      or `ghostData.pix` throws), both end in the route's catch, which answers 500. */
  function Handle(body: CheckoutBody, config: Config, reply: GatewayReply): (o: Outcome)
    ensures !(body.cart.CartArray? && |body.cart.items| > 0) ==> o == Outcome(InvalidCart(), None)
    ensures body.cart.CartArray? && |body.cart.items| > 0 ==>
      && o.sent.Some?
      && o.sent.value.amount == ComputeTotals(body.cart.items, Truthy(body.bumpAdded)).amountInCents
      && o.sent.value.items == GatewayItems(body.cart.items)
      && o.sent.value.paymentMethod == Str("PIX")
      && o.sent.value.installments == 1
      && o.sent.value.customer == CustomerWithDefaults(body.customer, "Cliente", "cliente@email.com")
      && o.sent.value.bumpAdded == Truthy(body.bumpAdded)
    ensures o.sent.Some? && reply.GatewayUnreachable? ==> o.response == InternalError()
    ensures o.sent.Some? && reply.GatewayReply? && Nullish(GhostData(reply.body)) ==> o.response == InternalError()
    ensures reply.GatewayReply? ==>
      var g := GhostData(reply.body);
      o.sent.Some? && !Nullish(g) && !IsOkStatus(reply.status) ==>
        && o.response.status == reply.status
        && OptMember(o.response.body, "ok") == Bool(false)
        && OptMember(o.response.body, "error") == ErrorText(g, FailureFallback).value
        && OptMember(o.response.body, "gatewayStatus") == Num(reply.status)
        && OptMember(o.response.body, "gatewayResponse") == g
    ensures reply.GatewayReply? ==>
      var g := GhostData(reply.body);
      o.sent.Some? && !Nullish(g) && IsOkStatus(reply.status) ==>
        && o.response.status == 200
        && OptMember(o.response.body, "ok") == Bool(true)
        && OptMember(o.response.body, "payment") == g
        && OptMember(o.response.body, "gatewayStatus") == Num(reply.status)
        && OptMember(o.response.body, "status") == OptMember(g, "status")
        && OptMember(OptMember(o.response.body, "pix"), "amount")
           == (if Truthy(OptMember(g, "amount")) then OptMember(g, "amount") else Num(o.sent.value.amount))
        && OptMember(OptMember(o.response.body, "pix"), "qrcode")
           == (if Truthy(OptMember(OptMember(g, "pix"), "qrcode")) then OptMember(OptMember(g, "pix"), "qrcode") else Null)
        && OptMember(OptMember(o.response.body, "pix"), "expirationDate")
           == Or(OptMember(OptMember(g, "pix"), "expirationDate"), Null)
  {
    match AcceptedCart(body.cart)
    case None => Outcome(InvalidCart(), None)
    case Some(cart) =>
      var payload := BuildPayload(cart, body, config);
      match reply
      case GatewayUnreachable => Outcome(InternalError(), Some(payload))
      case GatewayReply(status, text) =>
        var g := GhostData(text);
        var response :=
          if Nullish(g) then InternalError()
          else if !IsOkStatus(status) then GatewayFailure(status, g, FailureFallback)
          else Response(200, SuccessBody(g, status, payload.amount));
        Outcome(response, Some(payload))
  }

  /** This route checks no credentials: with every variable unset it still calls the
      gateway, posting to the default webhook URL. */
  lemma NoCredentialGuard(body: CheckoutBody, reply: GatewayReply)
    requires body.cart.CartArray? && |body.cart.items| > 0
    ensures Handle(body, Config("", "", ""), reply).sent.Some?
    ensures Handle(body, Config("", "", ""), reply).sent.value.postbackUrl == DefaultPostbackUrl
  {
  }

  /** A gateway 502 comes back as a 502 carrying the gateway's body, never as a 200. */
  lemma BadGatewayPassesThrough(body: CheckoutBody, config: Config, g: Json)
    requires body.cart.CartArray? && |body.cart.items| > 0 && !Nullish(g)
    ensures Handle(body, config, GatewayReply(502, JsonText(g))).response.status == 502
    ensures OptMember(Handle(body, config, GatewayReply(502, JsonText(g))).response.body, "gatewayResponse") == g
  {
  }
}
