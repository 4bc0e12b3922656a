/** The serverless `handler` of api/checkout.js: the same checkout as the Express route,
    with a method check, its own body parsing, a credential guard and a longer fallback
    chain for the PIX fields. */
module ServerlessCheckout {
  import opened Wrappers
  import opened Js
  import opened Http
  import opened Cart
  import opened Pricing
  import opened Gateway
  import ExpressCheckout

  /** The request body once read: an object (pre-parsed by the platform, or raw text
      that parsed to one; a parsed primitive or array reads as an object without
      fields), the JSON `null`, or raw text that `JSON.parse` rejects. */
  datatype BodyInput = Body(body: CheckoutBody) | NullBody | Unparseable

  const FailureFallback: string := "Erro GhostsPay"

  function BadJson(): Response {
    Response(400, ErrorBody("JSON inválido no corpo da requisição"))
  }

  function MissingCredentials(): Response {
    Response(500, ErrorBody("Credenciais GhostsPay não configuradas no servidor"))
  }

  /** The `ghostsPayload` object literal of the handler. */
  function BuildPayload(cart: seq<CartItem>, body: CheckoutBody, config: Config): Payload {
    Payload(
      ComputeTotals(cart, Truthy(body.bumpAdded)).amountInCents,
      "Compra na WeFriday Store",
      Or(body.paymentMethod, Str("PIX")),
      1,
      config.postbackUrl,
      config.companyId,
      CustomerWithDefaults(body.customer, "Cliente WeFriday", "cliente@example.com"),
      GatewayItems(cart),
      Truthy(body.bumpAdded),
      "wefriday-frontend")
  }

  /** `x.pix?.<key> || x.gatewayResponse?.pix?.<key> || null` */
  function PixField(g: Json, key: string): (r: Json)
    ensures Truthy(OptMember(OptMember(g, "pix"), key)) ==> r == OptMember(OptMember(g, "pix"), key)
    ensures !Truthy(OptMember(OptMember(g, "pix"), key)) ==>
      r == Or(OptMember(OptMember(OptMember(g, "gatewayResponse"), "pix"), key), Null)
    ensures r == Null || Truthy(r)
  {
    Or(Or(OptMember(OptMember(g, "pix"), key),
          OptMember(OptMember(OptMember(g, "gatewayResponse"), "pix"), key)),
       Null)
  }

  /** `{ ok: true, payment, pix: { qrcode, expirationDate, amount }, status: status || 'pending' }` */
  function SuccessBody(g: Json, amountInCents: int): (r: Json)
    ensures OptMember(r, "ok") == Bool(true)
    ensures OptMember(r, "payment") == g
    ensures OptMember(r, "status") == Or(OptMember(g, "status"), Str("pending"))
    ensures Truthy(OptMember(r, "status"))
    ensures OptMember(OptMember(r, "pix"), "qrcode") == PixField(g, "qrcode")
    ensures OptMember(OptMember(r, "pix"), "expirationDate") == PixField(g, "expirationDate")
    ensures OptMember(OptMember(r, "pix"), "amount") == PixAmount(g, amountInCents)
  {
    Obj(map[
      "ok" := Bool(true),
      "payment" := g,
      "pix" := Obj(map[
        "qrcode" := PixField(g, "qrcode"),
        "expirationDate" := PixField(g, "expirationDate"),
        "amount" := PixAmount(g, amountInCents)]),
      "status" := Or(OptMember(g, "status"), Str("pending"))])
  }

  predicate ValidCart(input: BodyInput) {
    input.Body? && input.body.cart.CartArray? && |input.body.cart.items| > 0
  }

  predicate HasCredentials(config: Config) {
    config.secretKey != "" && config.companyId != ""
  }

  /** The whole handler. Destructuring a null body throws, and so do a gateway that cannot
      be reached and reading a field of a null gateway reply; the catch turns each into a
      500. */
  function Handle(httpMethod: string, input: BodyInput, config: Config, reply: GatewayReply): (o: Outcome)
    ensures httpMethod != "POST" ==> o == Outcome(MethodNotAllowed(), None)
    ensures httpMethod == "POST" && input.Unparseable? ==> o == Outcome(BadJson(), None)
    ensures httpMethod == "POST" && input.NullBody? ==> o == Outcome(InternalError(), None)
    ensures httpMethod == "POST" && input.Body? && !ValidCart(input) ==> o == Outcome(InvalidCart(), None)
    ensures httpMethod == "POST" && ValidCart(input) && !HasCredentials(config) ==>
      o == Outcome(MissingCredentials(), None)
    ensures o.sent.Some? <==> httpMethod == "POST" && ValidCart(input) && HasCredentials(config)
    ensures o.sent.Some? ==>
      && o.sent.value.amount == ComputeTotals(input.body.cart.items, Truthy(input.body.bumpAdded)).amountInCents
      && o.sent.value.items == GatewayItems(input.body.cart.items)
      && o.sent.value.paymentMethod == Or(input.body.paymentMethod, Str("PIX"))
      && o.sent.value.installments == 1
      && o.sent.value.customer == CustomerWithDefaults(input.body.customer, "Cliente WeFriday", "cliente@example.com")
      && o.sent.value.bumpAdded == Truthy(input.body.bumpAdded)
    ensures o.sent.Some? && reply.GatewayUnreachable? ==> o.response == InternalError()
    ensures o.sent.Some? && reply.GatewayReply? && Nullish(GhostData(reply.body)) ==> o.response == InternalError()
    ensures reply.GatewayReply? ==>
      var g := GhostData(reply.body);
      o.sent.Some? && !Nullish(g) && !IsOkStatus(reply.status) ==>
        && o.response.status == reply.status
        && OptMember(o.response.body, "ok") == Bool(false)
        && OptMember(o.response.body, "error") == ErrorText(g, FailureFallback).value
        && OptMember(o.response.body, "gatewayStatus") == Num(reply.status)
        && OptMember(o.response.body, "gatewayResponse") == g
    ensures reply.GatewayReply? ==>
      var g := GhostData(reply.body);
      o.sent.Some? && !Nullish(g) && IsOkStatus(reply.status) ==>
        && o.response.status == 200
        && OptMember(o.response.body, "ok") == Bool(true)
        && OptMember(o.response.body, "payment") == g
        && OptMember(o.response.body, "status") == Or(OptMember(g, "status"), Str("pending"))
        && OptMember(OptMember(o.response.body, "pix"), "qrcode") == PixField(g, "qrcode")
        && OptMember(OptMember(o.response.body, "pix"), "expirationDate") == PixField(g, "expirationDate")
        && OptMember(OptMember(o.response.body, "pix"), "amount")
           == (if Truthy(OptMember(g, "amount")) then OptMember(g, "amount") else Num(o.sent.value.amount))
  {
    if httpMethod != "POST" then Outcome(MethodNotAllowed(), None)
    else
      match input
      case Unparseable => Outcome(BadJson(), None)
      case NullBody => Outcome(InternalError(), None)
      case Body(body) =>
        match AcceptedCart(body.cart)
        case None => Outcome(InvalidCart(), None)
        case Some(cart) =>
          var payload := BuildPayload(cart, body, config);
          if !HasCredentials(config) then Outcome(MissingCredentials(), None)
          else
            match reply
            case GatewayUnreachable => Outcome(InternalError(), Some(payload))
            case GatewayReply(status, text) =>
              var g := GhostData(text);
              var response :=
                if Nullish(g) then InternalError()
                else if !IsOkStatus(status) then GatewayFailure(status, g, FailureFallback)
                else Response(200, SuccessBody(g, payload.amount));
              Outcome(response, Some(payload))
  }

  /** The two checkout implementations charge the same amount for the same lines: where
      the serverless handler reaches the gateway, the Express route sends the same
      amount, items and bump flag. The two source files price and list the lines with
      the same text, which this model writes once (`ComputeTotals`, `GatewayItems`), so
      the agreement holds by construction; the lemma records that the two routes differ
      only in their description, defaults and guards. */
  lemma AgreesWithExpress(input: BodyInput, config: Config, reply: GatewayReply)
    requires ValidCart(input) && HasCredentials(config)
    ensures var s := Handle("POST", input, config, reply).sent;
      var e := ExpressCheckout.Handle(input.body, config, reply).sent;
      s.Some? && e.Some? && s.value.amount == e.value.amount
      && s.value.items == e.value.items && s.value.bumpAdded == e.value.bumpAdded
  {
  }

  /** The qrcode sits at `pix.qrcode` or one level down at `gatewayResponse.pix.qrcode`;
      the top-level one wins when both are present. */
  lemma QrcodePrecedence(top: Json, nested: Json)
    requires Truthy(top) && Truthy(nested)
    ensures PixField(Obj(map["pix" := Obj(map["qrcode" := top]),
                             "gatewayResponse" := Obj(map["pix" := Obj(map["qrcode" := nested])])]), "qrcode") == top
    ensures PixField(Obj(map["gatewayResponse" := Obj(map["pix" := Obj(map["qrcode" := nested])])]), "qrcode") == nested
    ensures PixField(Obj(map[]), "qrcode") == Null
  {
  }
}
