/** The checkout side of src/App.jsx: the request `handlePaymentProcess` sends, how it
    reads the reply, the payment-status machine idle → processing → pix | success | error
    with the cancel dialog back to idle, and what the checkout page shows. The fetch
    result is an input. */
module ClientCheckout {
  import opened Wrappers
  import opened Js
  import opened Http
  import opened Cart
  import opened Pricing
  import opened Gateway
  import ExpressCheckout
  import ServerlessCheckout

  datatype PayStatus = Idle | Processing | Pix | Success | Error

  /** The App state the checkout touches. `pixInfo` and `transactionId` are null when unset. */
  datatype ClientState = ClientState(cart: seq<CartItem>, status: PayStatus, pixInfo: Json, transactionId: Json)

  function InitialState(): ClientState {
    ClientState([], Idle, Null, Null)
  }

  /** The checkout form's fields. */
  datatype FormData = FormData(email: string, name: string, cep: string, address: string,
                               number: string, city: string, complement: string)

  datatype ShippingBlock = ShippingBlock(zipCode: string, street: string, neighborhood: string, city: string,
                                         state: string, number: string, complement: string)

  /** The JSON the client POSTs to `/api/checkout`. */
  datatype ClientRequest = ClientRequest(cart: seq<CartItem>, name: string, email: string,
                                         shipping: Option<ShippingBlock>, paymentMethod: string, bumpAdded: bool)

  /** The `payload` of `handlePaymentProcess`: a shipping block only when a CEP was typed. */
  function BuildRequest(cart: seq<CartItem>, form: FormData, bumpAdded: bool, paymentMethod: string): (r: ClientRequest)
    ensures r.cart == cart && r.bumpAdded == bumpAdded && r.paymentMethod == paymentMethod
    ensures r.name == form.name && r.email == form.email
    ensures r.shipping.Some? <==> form.cep != ""
    ensures r.shipping.Some? ==>
      r.shipping.value.zipCode == form.cep && r.shipping.value.street == form.address
      && r.shipping.value.neighborhood == "" && r.shipping.value.state == ""
  {
    var shipping :=
      if form.cep != "" then
        Some(ShippingBlock(form.cep, form.address, "", form.city, "", form.number, form.complement))
      else None;
    ClientRequest(cart, form.name, form.email, shipping, paymentMethod, bumpAdded)
  }

  /** What a server reads out of the request, once it has crossed the wire as JSON.
      The shipping block is dropped: neither server reads it. */
  function ToServerBody(req: ClientRequest): CheckoutBody {
    CheckoutBody(CartArray(req.cart),
                 Obj(map["name" := Str(req.name), "email" := Str(req.email)]),
                 Str(req.paymentMethod),
                 Bool(req.bumpAdded))
  }

  /** The "FINALIZAR COMPRA" button: enabled on a non-empty cart when not processing,
      and shown only on the form (idle or error). */
  function BeginPayment(s: ClientState): (r: ClientState)
    requires |s.cart| > 0 && (s.status == Idle || s.status == Error)
    ensures r == s.(status := Processing)
  {
    s.(status := Processing)
  }

  /** The checkout fetch as the client sees it: a rejected fetch, or a reply with its `ok`
      flag and its body (None when `resp.json()` throws). */
  datatype ClientReply = FetchFailed | Reply(ok: bool, data: Option<Json>)

  /** Passes `if (!resp.ok || !data.ok) throw ...` (reading `data.ok` of null throws too). */
  predicate Accepted(reply: ClientReply) {
    reply.Reply? && reply.ok && reply.data.Some? && !Nullish(reply.data.value)
    && Truthy(OptMember(reply.data.value, "ok"))
  }

  /** `data.checkoutUrl || data.gatewayResponse?.pix?.qrcode || data.pix?.qrcode || null` */
  function QrcodeOf(data: Json): (r: Json)
    ensures Truthy(OptMember(data, "checkoutUrl")) ==> r == OptMember(data, "checkoutUrl")
    ensures !Truthy(OptMember(data, "checkoutUrl")) && Truthy(OptMember(OptMember(OptMember(data, "gatewayResponse"), "pix"), "qrcode")) ==>
      r == OptMember(OptMember(OptMember(data, "gatewayResponse"), "pix"), "qrcode")
    ensures !Truthy(OptMember(data, "checkoutUrl")) && !Truthy(OptMember(OptMember(OptMember(data, "gatewayResponse"), "pix"), "qrcode")) ==>
      r == Or(OptMember(OptMember(data, "pix"), "qrcode"), Null)
    ensures r == Null || Truthy(r)
  {
    Or(Or(Or(OptMember(data, "checkoutUrl"),
             OptMember(OptMember(OptMember(data, "gatewayResponse"), "pix"), "qrcode")),
          OptMember(OptMember(data, "pix"), "qrcode")),
       Null)
  }

  /** As written: `data.transactionId || data.gatewayResponse?.id || data.id || null`. */
  function TransactionIdAsWritten(data: Json): Json {
    Or(Or(Or(OptMember(data, "transactionId"), OptMember(OptMember(data, "gatewayResponse"), "id")),
          OptMember(data, "id")),
       Null)
  }

  /** Neither server's success body carries any of the three keys the client tries, so
      the transaction id is never captured. */
  lemma TransactionIdNeverFound(g: Json, status: int, amountInCents: int)
    ensures TransactionIdAsWritten(ExpressCheckout.SuccessBody(g, status, amountInCents)) == Null
    ensures TransactionIdAsWritten(ServerlessCheckout.SuccessBody(g, amountInCents)) == Null
  {
  }

  /** Corrected: the same chain, falling back to the gateway's own id in `data.payment`. */
  function TransactionId(data: Json): (r: Json)
    ensures Truthy(TransactionIdAsWritten(data)) ==> r == TransactionIdAsWritten(data)
    ensures !Truthy(TransactionIdAsWritten(data)) ==> r == Or(OptMember(OptMember(data, "payment"), "id"), Null)
  {
    var asWritten := TransactionIdAsWritten(data);
    if Truthy(asWritten) then asWritten else Or(OptMember(OptMember(data, "payment"), "id"), Null)
  }

  /** With the fallback, the id the gateway assigned reaches the client from either server. */
  lemma TransactionIdRecovered(g: Json, status: int, amountInCents: int)
    requires Truthy(OptMember(g, "id"))
    ensures TransactionId(ExpressCheckout.SuccessBody(g, status, amountInCents)) == OptMember(g, "id")
    ensures TransactionId(ServerlessCheckout.SuccessBody(g, amountInCents)) == OptMember(g, "id")
  {
  }

  /** `{ qrcode, expirationDate: data.pix?.expirationDate || data.gatewayResponse?.pix?.expirationDate || null,
        amount: data.pix?.amount ?? data.payment?.amount ?? data.gatewayResponse?.amount ?? null }` */
  function PixInfoOf(data: Json, qrcode: Json): (r: Json)
    ensures OptMember(r, "qrcode") == qrcode
    ensures !Nullish(OptMember(OptMember(data, "pix"), "amount")) ==>
      OptMember(r, "amount") == OptMember(OptMember(data, "pix"), "amount")
    ensures Nullish(OptMember(OptMember(data, "pix"), "amount")) && !Nullish(OptMember(OptMember(data, "payment"), "amount")) ==>
      OptMember(r, "amount") == OptMember(OptMember(data, "payment"), "amount")
    ensures Nullish(OptMember(OptMember(data, "pix"), "amount")) && Nullish(OptMember(OptMember(data, "payment"), "amount")) ==>
      OptMember(r, "amount") == Coalesce(OptMember(OptMember(data, "gatewayResponse"), "amount"), Null)
    ensures !Nullish(OptMember(r, "amount")) || OptMember(r, "amount") == Null
    ensures Truthy(OptMember(OptMember(data, "pix"), "expirationDate")) ==>
      OptMember(r, "expirationDate") == OptMember(OptMember(data, "pix"), "expirationDate")
    ensures !Truthy(OptMember(OptMember(data, "pix"), "expirationDate")) ==>
      OptMember(r, "expirationDate") == Or(OptMember(OptMember(OptMember(data, "gatewayResponse"), "pix"), "expirationDate"), Null)
    ensures OptMember(r, "expirationDate") == Null || Truthy(OptMember(r, "expirationDate"))
    ensures OptMember(r, "expiresAt") == Undefined
  {
    Obj(map[
      "qrcode" := qrcode,
      "expirationDate" := Or(Or(OptMember(OptMember(data, "pix"), "expirationDate"),
                                OptMember(OptMember(OptMember(data, "gatewayResponse"), "pix"), "expirationDate")),
                             Null),
      "amount" := Coalesce(Coalesce(Coalesce(OptMember(OptMember(data, "pix"), "amount"),
                                             OptMember(OptMember(data, "payment"), "amount")),
                                    OptMember(OptMember(data, "gatewayResponse"), "amount")),
                           Null)])
  }

  /** The rest of `handlePaymentProcess` once the reply is in: any failure → error with
      nothing else touched; a PIX reply without a qrcode → error; a PIX reply with one →
      pix, its info stored, the transaction id of the chain as written stored if found,
      the cart emptied; another method → success, the cart emptied. */
  function Resolve(s: ClientState, paymentMethod: string, reply: ClientReply): (r: ClientState)
    requires s.status == Processing
    ensures r.status == Pix || r.status == Success || r.status == Error
    ensures !Accepted(reply) ==> r == s.(status := Error)
    ensures Accepted(reply) && paymentMethod == "PIX" && !Truthy(QrcodeOf(reply.data.value)) ==> r == s.(status := Error)
    ensures Accepted(reply) && paymentMethod == "PIX" && Truthy(QrcodeOf(reply.data.value)) ==>
      && r.status == Pix
      && r.cart == []
      && r.pixInfo == PixInfoOf(reply.data.value, QrcodeOf(reply.data.value))
      && (Truthy(TransactionIdAsWritten(reply.data.value)) ==> r.transactionId == TransactionIdAsWritten(reply.data.value))
      && (!Truthy(TransactionIdAsWritten(reply.data.value)) ==> r.transactionId == s.transactionId)
    ensures Accepted(reply) && paymentMethod != "PIX" ==> r == s.(status := Success, cart := [])
  {
    if !Accepted(reply) then s.(status := Error)
    else
      var data := reply.data.value;
      if paymentMethod == "PIX" then
        var qrcode := QrcodeOf(data);
        if !Truthy(qrcode) then s.(status := Error)
        else
          var trxId := TransactionIdAsWritten(data);
          var transactionId := if Truthy(trxId) then trxId else s.transactionId;
          ClientState([], Pix, PixInfoOf(data, qrcode), transactionId)
      else
        s.(status := Success, cart := [])
  }

  /** Corrected: `Resolve` with the transaction id read through the corrected chain, so
      that the id the gateway assigned reaches the polling. Everything else is as written. */
  function ResolveCorrected(s: ClientState, paymentMethod: string, reply: ClientReply): (r: ClientState)
    requires s.status == Processing
    ensures r.status == Resolve(s, paymentMethod, reply).status
    ensures r.cart == Resolve(s, paymentMethod, reply).cart
    ensures r.pixInfo == Resolve(s, paymentMethod, reply).pixInfo
    ensures r.status != Pix ==> r.transactionId == Resolve(s, paymentMethod, reply).transactionId
    ensures r.status == Pix ==>
      && Accepted(reply)
      && (Truthy(TransactionId(reply.data.value)) ==> r.transactionId == TransactionId(reply.data.value))
      && (!Truthy(TransactionId(reply.data.value)) ==> r.transactionId == s.transactionId)
  {
    var r := Resolve(s, paymentMethod, reply);
    if r.status != Pix then r
    else
      var trxId := TransactionId(reply.data.value);
      r.(transactionId := if Truthy(trxId) then trxId else s.transactionId)
  }

  /** "Cancelar PIX e voltar à loja" in the dialog of the PIX screen. */
  function CancelPix(s: ClientState): (r: ClientState)
    requires s.status == Pix
    ensures r.status == Idle && r.pixInfo == Null && r.transactionId == Null && r.cart == s.cart
  {
    s.(status := Idle, pixInfo := Null, transactionId := Null)
  }

  /** "Continuar Comprando" on the success screen. */
  function FinishSuccess(s: ClientState): (r: ClientState)
    requires s.status == Success
    ensures r.status == Idle && r.cart == s.cart && r.pixInfo == s.pixInfo && r.transactionId == s.transactionId
  {
    s.(status := Idle)
  }

  /** In the pix state there is always a code to show. */
  predicate Consistent(s: ClientState) {
    s.status == Pix ==> Truthy(OptMember(s.pixInfo, "qrcode"))
  }

  /** Every transition keeps the pix state showable. */
  lemma TransitionsKeepConsistent(s: ClientState, paymentMethod: string, reply: ClientReply, cart: seq<CartItem>)
    requires Consistent(s)
    ensures |s.cart| > 0 && (s.status == Idle || s.status == Error) ==> Consistent(BeginPayment(s))
    ensures s.status == Processing ==> Consistent(Resolve(s, paymentMethod, reply))
    ensures s.status == Processing ==> Consistent(ResolveCorrected(s, paymentMethod, reply))
    ensures s.status == Pix ==> Consistent(CancelPix(s))
    ensures s.status == Success ==> Consistent(FinishSuccess(s))
    ensures Consistent(s.(cart := cart))
  {
  }

  /** The `beforeunload` warning: only while a PIX charge is on screen. */
  predicate WarnOnLeave(s: ClientState) {
    s.status == Pix && Truthy(s.pixInfo)
  }

  lemma WarnExactlyInPix(s: ClientState)
    requires Consistent(s)
    ensures WarnOnLeave(s) <==> s.status == Pix
  {
  }

  datatype View = EmptyCartView | PixView | SuccessView | FormView

  /** Which screen `CheckoutPage` renders, checked in the source's order. */
  function CheckoutView(s: ClientState): View {
    if |s.cart| == 0 && s.status != Success && s.status != Pix then EmptyCartView
    else if s.status == Pix && Truthy(s.pixInfo) then PixView
    else if s.status == Success then SuccessView
    else FormView
  }

  /** The empty-cart guard exempts pix and success, so emptying the cart on a PIX reply
      still shows the PIX screen; cancelling falls back to the empty-cart screen. */
  lemma PixScreenSurvivesEmptyCart(s: ClientState, reply: ClientReply)
    requires s.status == Processing
    requires Accepted(reply) && Truthy(QrcodeOf(reply.data.value))
    ensures CheckoutView(Resolve(s, "PIX", reply)) == PixView
    ensures CheckoutView(CancelPix(Resolve(s, "PIX", reply))) == EmptyCartView
  {
  }

  // ---------------------------------------------------------------------------
  // End to end with the servers
  // ---------------------------------------------------------------------------

  /** The Express success reply, read by the client, lands in the pix state with the
      gateway's qrcode and the charged amount. As written the transaction id is not
      captured; with the corrected chain it is the gateway's id. */
  lemma ExpressPixRoundTrip(s: ClientState, form: FormData, bumpAdded: bool, config: Config, status: int, g: Json)
    requires s.status == Processing && |s.cart| > 0 && IsOkStatus(status)
    requires !Nullish(g) && Truthy(OptMember(OptMember(g, "pix"), "qrcode"))
    ensures var o := ExpressCheckout.Handle(ToServerBody(BuildRequest(s.cart, form, bumpAdded, "PIX")), config,
                                            GatewayReply(status, JsonText(g)));
      var reply := Reply(IsOkStatus(o.response.status), Some(o.response.body));
      var r := Resolve(s, "PIX", reply);
      && r.status == Pix
      && r.cart == []
      && OptMember(r.pixInfo, "qrcode") == OptMember(OptMember(g, "pix"), "qrcode")
      && OptMember(r.pixInfo, "amount") == PixAmount(g, ComputeTotals(s.cart, bumpAdded).amountInCents)
      && r.transactionId == s.transactionId
      && (Truthy(OptMember(g, "id")) ==> ResolveCorrected(s, "PIX", reply).transactionId == OptMember(g, "id"))
  {
    var body := ToServerBody(BuildRequest(s.cart, form, bumpAdded, "PIX"));
    var o := ExpressCheckout.Handle(body, config, GatewayReply(status, JsonText(g)));
    var amount := ComputeTotals(s.cart, bumpAdded).amountInCents;
    assert o.response == Response(200, ExpressCheckout.SuccessBody(g, status, amount));
    var data := o.response.body;
    assert OptMember(data, "checkoutUrl") == Undefined && OptMember(data, "gatewayResponse") == Undefined;
    assert Accepted(Reply(true, Some(data)));
    assert QrcodeOf(data) == OptMember(OptMember(g, "pix"), "qrcode");
    assert TransactionIdAsWritten(data) == Null by { TransactionIdNeverFound(g, status, amount); }
    if Truthy(OptMember(g, "id")) {
      assert TransactionId(data) == OptMember(g, "id") by { TransactionIdRecovered(g, status, amount); }
    }
  }

  /** A gateway success without a qrcode ends in the error state, cart kept. */
  lemma ExpressNoQrcodeIsError(s: ClientState, form: FormData, bumpAdded: bool, config: Config, status: int, g: Json)
    requires s.status == Processing && |s.cart| > 0 && IsOkStatus(status)
    requires !Nullish(g) && !Truthy(OptMember(OptMember(g, "pix"), "qrcode"))
    ensures var o := ExpressCheckout.Handle(ToServerBody(BuildRequest(s.cart, form, bumpAdded, "PIX")), config,
                                            GatewayReply(status, JsonText(g)));
      Resolve(s, "PIX", Reply(IsOkStatus(o.response.status), Some(o.response.body))) == s.(status := Error)
  {
    var body := ToServerBody(BuildRequest(s.cart, form, bumpAdded, "PIX"));
    var o := ExpressCheckout.Handle(body, config, GatewayReply(status, JsonText(g)));
    var amount := ComputeTotals(s.cart, bumpAdded).amountInCents;
    assert o.response == Response(200, ExpressCheckout.SuccessBody(g, status, amount));
    var data := o.response.body;
    assert OptMember(data, "checkoutUrl") == Undefined && OptMember(data, "gatewayResponse") == Undefined;
    assert OptMember(OptMember(data, "pix"), "qrcode") == Null;
    assert QrcodeOf(data) == Null;
  }

  /** A checkout the server refuses, or whose gateway cannot be reached, never reaches the
      pix state. */
  lemma ServerRefusalIsError(s: ClientState, form: FormData, bumpAdded: bool, config: Config, reply: GatewayReply)
    requires s.status == Processing && |s.cart| > 0
    requires reply.GatewayUnreachable? || !IsOkStatus(reply.status)
    ensures var o := ExpressCheckout.Handle(ToServerBody(BuildRequest(s.cart, form, bumpAdded, "PIX")), config, reply);
      Resolve(s, "PIX", Reply(IsOkStatus(o.response.status), Some(o.response.body))).status == Error
  {
  }

  // ---------------------------------------------------------------------------
  // What the checkout page displays
  // ---------------------------------------------------------------------------

  /** As written, the summary's "Total" is `finalTotal`, which leaves the bump out even
      when the bump line is shown above it. */
  function SummaryTotalAsWritten(cart: seq<CartItem>): int {
    FinalTotal(DisplaySubtotal(cart))
  }

  /** With the bump taken, the displayed total is R$ 9,90 short of what is charged. */
  lemma SummaryOmitsBump(cart: seq<CartItem>, form: FormData, config: Config, reply: GatewayReply)
    requires WellFormed(cart) && |cart| > 0
    ensures var sent := ExpressCheckout.Handle(ToServerBody(BuildRequest(cart, form, true, "PIX")), config, reply).sent;
      sent.Some? && SummaryTotalAsWritten(cart) + OrderBumpPrice == sent.value.amount
  {
    DisplayAgreesWithCheckout(cart);
  }

  /** Corrected summary total: the bump line is part of the total. */
  function SummaryTotal(cart: seq<CartItem>, bumpAdded: bool): int {
    FinalTotal(DisplaySubtotal(cart)) + BumpCost(bumpAdded)
  }

  /** The corrected total is exactly what either server charges for a UI-built cart, and
      the amount the checkout page computes itself. */
  lemma SummaryMatchesCharge(cart: seq<CartItem>, form: FormData, bumpAdded: bool, config: Config, reply: GatewayReply)
    requires WellFormed(cart) && |cart| > 0
    requires ServerlessCheckout.HasCredentials(config)
    ensures var req := BuildRequest(cart, form, bumpAdded, "PIX");
      var e := ExpressCheckout.Handle(ToServerBody(req), config, reply).sent;
      var v := ServerlessCheckout.Handle("POST", ServerlessCheckout.Body(ToServerBody(req)), config, reply).sent;
      && e.Some? && v.Some?
      && SummaryTotal(cart, bumpAdded) == e.value.amount
      && SummaryTotal(cart, bumpAdded) == v.value.amount
      && SummaryTotal(cart, bumpAdded) == ComputeTotals(cart, bumpAdded).amountInCents
  {
    DisplayAgreesWithCheckout(cart);
  }

  /** As written, the PIX screen reads `pixInfo.expiresAt`. */
  function PixExpiryAsWritten(pixInfo: Json): Option<Json> {
    var e := OptMember(pixInfo, "expiresAt");
    if Truthy(e) then Some(e) else None
  }

  /** The stored key is `expirationDate`, so the expiry line is never shown, even when the
      gateway sent one. */
  lemma ExpiryNeverShown(data: Json, qrcode: Json)
    ensures PixExpiryAsWritten(PixInfoOf(data, qrcode)).None?
  {
  }

  /** Corrected: read the key the client stores. */
  function PixExpiry(pixInfo: Json): Option<Json> {
    var e := OptMember(pixInfo, "expirationDate");
    if Truthy(e) then Some(e) else None
  }

  /** With the stored key, a gateway expiration date reaches the screen. */
  lemma ExpiryShown(data: Json, qrcode: Json)
    requires Truthy(OptMember(OptMember(data, "pix"), "expirationDate"))
    ensures PixExpiry(PixInfoOf(data, qrcode)) == Some(OptMember(OptMember(data, "pix"), "expirationDate"))
  {
  }
}
