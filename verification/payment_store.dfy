/** The in-memory payment-status store: the Express webhook and status lookup of
    backend/server.js, and the serverless webhook of api/ghostspay/webhook.js (which keeps
    its own, separate store). Keys are whatever JSON value the event carries as its id,
    compared as a JavaScript `Map` compares strings and numbers. */
module PaymentStore {
  import opened Wrappers
  import opened Js
  import opened Http

  /** `{ status, amount, gatewayResponse }` */
  datatype Entry = Entry(status: Json, amount: Json, gatewayResponse: Json)

  type Store = map<Json, Entry>

  /** A handler's reply and the store it leaves behind. */
  datatype Handled = Handled(response: Response, store: Store)

  /** Every entry either webhook writes has a truthy status and a non-nullish amount. */
  predicate WellFormedStore(store: Store) {
    forall k :: k in store ==> Truthy(store[k].status) && !Nullish(store[k].amount)
  }

  // ---------------------------------------------------------------------------
  // Express: merge into the stored entry
  // ---------------------------------------------------------------------------

  /** `status: event.status || existing.status || 'unknown'`,
      `amount: event.amount ?? existing.amount ?? 0`, `gatewayResponse: event`,
      where `existing` is the stored entry or `{}`. */
  function MergeEntry(existing: Option<Entry>, event: Json): (e: Entry)
    ensures Truthy(e.status) && !Nullish(e.amount) && e.gatewayResponse == event
    ensures Truthy(OptMember(event, "status")) ==> e.status == OptMember(event, "status")
    ensures !Truthy(OptMember(event, "status")) && existing.Some? && Truthy(existing.value.status) ==>
      e.status == existing.value.status
    ensures !Truthy(OptMember(event, "status")) && (existing.None? || !Truthy(existing.value.status)) ==>
      e.status == Str("unknown")
    ensures !Nullish(OptMember(event, "amount")) ==> e.amount == OptMember(event, "amount")
    ensures Nullish(OptMember(event, "amount")) && existing.Some? && !Nullish(existing.value.amount) ==>
      e.amount == existing.value.amount
    ensures Nullish(OptMember(event, "amount")) && (existing.None? || Nullish(existing.value.amount)) ==>
      e.amount == Num(0)
  {
    var priorStatus := if existing.Some? then existing.value.status else Undefined;
    var priorAmount := if existing.Some? then existing.value.amount else Undefined;
    Entry(Or(Or(OptMember(event, "status"), priorStatus), Str("unknown")),
          Coalesce(Coalesce(OptMember(event, "amount"), priorAmount), Num(0)),
          event)
  }

  function Lookup(store: Store, key: Json): Option<Entry> {
    if key in store then Some(store[key]) else None
  }

  /** `POST /api/ghostspay/webhook` on the Express server. */
  function ExpressWebhook(store: Store, event: Json): (h: Handled)
    ensures !Truthy(event) || !Truthy(OptMember(event, "id")) ==>
      h == Handled(Response(400, ErrorBody("Webhook sem ID de pagamento")), store)
    ensures Truthy(event) && Truthy(OptMember(event, "id")) ==>
      var id := OptMember(event, "id");
      && h.response == Response(200, OkBody())
      && h.store.Keys == store.Keys + {id}
      && h.store[id] == MergeEntry(Lookup(store, id), event)
      && (forall k :: k in store && k != id ==> h.store[k] == store[k])
  {
    if !Truthy(event) || !Truthy(OptMember(event, "id")) then
      Handled(Response(400, ErrorBody("Webhook sem ID de pagamento")), store)
    else
      var id := OptMember(event, "id");
      Handled(Response(200, OkBody()), store[id := MergeEntry(Lookup(store, id), event)])
  }

  /** The Express webhook keeps the store well-formed. */
  lemma ExpressWebhookPreservesWellFormed(store: Store, event: Json)
    requires WellFormedStore(store)
    ensures WellFormedStore(ExpressWebhook(store, event).store)
  {
  }

  /** Merge, don't clobber: an event that omits the status or the amount leaves the
      stored value in place; any other key is untouched. */
  lemma ExpressPartialUpdateKeeps(store: Store, event: Json)
    requires WellFormedStore(store)
    requires Truthy(event) && Truthy(OptMember(event, "id")) && OptMember(event, "id") in store
    ensures var id := OptMember(event, "id");
      var after := ExpressWebhook(store, event).store;
      && (!Truthy(OptMember(event, "status")) ==> after[id].status == store[id].status)
      && (Nullish(OptMember(event, "amount")) ==> after[id].amount == store[id].amount)
      && (Truthy(OptMember(event, "status")) ==> after[id].status == OptMember(event, "status"))
  {
  }

  /** Two deliveries with different statuses, then a third without an amount: the store
      holds the latest status and still the amount of the second delivery. */
  lemma RedeliveryScenario()
    ensures var s1 := ExpressWebhook(map[], Obj(map["id" := Str("t1"), "status" := Str("pending"), "amount" := Num(10190)])).store;
      var s2 := ExpressWebhook(s1, Obj(map["id" := Str("t1"), "status" := Str("paid"), "amount" := Num(10190)])).store;
      var s3 := ExpressWebhook(s2, Obj(map["id" := Str("t1"), "status" := Str("refunded")])).store;
      && s2[Str("t1")].status == Str("paid")
      && s3[Str("t1")].status == Str("refunded")
      && s3[Str("t1")].amount == Num(10190)
  {
  }

  /** `GET /api/payment-status/:id` */
  function PaymentStatus(store: Store, id: string): (r: Response)
    ensures id == "" ==> r == Response(400, ErrorBody("ID não informado"))
    ensures id != "" && Str(id) !in store ==> r == Response(404, ErrorBody("Pagamento não encontrado"))
    ensures id != "" && Str(id) in store ==>
      && r.status == 200
      && OptMember(r.body, "ok") == Bool(true)
      && OptMember(r.body, "id") == Str(id)
      && OptMember(r.body, "status") == store[Str(id)].status
      && OptMember(r.body, "amount") == store[Str(id)].amount
      && OptMember(r.body, "gatewayResponse") == store[Str(id)].gatewayResponse
  {
    if id == "" then Response(400, ErrorBody("ID não informado"))
    else if Str(id) !in store then Response(404, ErrorBody("Pagamento não encontrado"))
    else
      var info := store[Str(id)];
      Response(200, Obj(map[
        "ok" := Bool(true),
        "id" := Str(id),
        "status" := info.status,
        "amount" := info.amount,
        "gatewayResponse" := info.gatewayResponse]))
  }

  /** A webhook for a string id is visible to the status lookup straight away, with the
      merged status and amount. */
  lemma WebhookThenLookup(store: Store, event: Json, id: string)
    requires id != "" && Truthy(event) && OptMember(event, "id") == Str(id)
    ensures var after := ExpressWebhook(store, event).store;
      var r := PaymentStatus(after, id);
      && r.status == 200
      && OptMember(r.body, "status") == MergeEntry(Lookup(store, Str(id)), event).status
      && OptMember(r.body, "amount") == MergeEntry(Lookup(store, Str(id)), event).amount
  {
  }

  /** An id never delivered is not found: a lookup of an absent id answers 404, and a
      delivery for any other id leaves it so. */
  lemma UnknownIdNotFound(store: Store, event: Json, id: string)
    requires id != "" && Str(id) !in store && OptMember(event, "id") != Str(id)
    ensures PaymentStatus(store, id).status == 404
    ensures PaymentStatus(ExpressWebhook(store, event).store, id).status == 404
  {
  }

  /** The route parameter is a string, so an entry stored under a numeric id is never
      found: the delivery is stored, yet every lookup answers as it did before it. */
  lemma NumericIdUnreachable(store: Store, event: Json, n: int, id: string)
    requires Truthy(event) && OptMember(event, "id") == Num(n) && n != 0
    ensures Num(n) in ExpressWebhook(store, event).store
    ensures PaymentStatus(ExpressWebhook(store, event).store, id) == PaymentStatus(store, id)
  {
    var after := ExpressWebhook(store, event).store;
    assert Str(id) in after <==> Str(id) in store;
    if Str(id) in store {
      assert after[Str(id)] == store[Str(id)];
    }
  }

  // ---------------------------------------------------------------------------
  // Serverless: overwrite the stored entry
  // ---------------------------------------------------------------------------

  /** The body once read: a parsed JSON value, or text `JSON.parse` rejects. */
  datatype WebhookInput = Event(event: Json) | Unparseable

  /** `event.id || event.transactionId || event.referenceId` */
  function TransactionId(event: Json): (r: Json)
    ensures Truthy(OptMember(event, "id")) ==> r == OptMember(event, "id")
    ensures !Truthy(OptMember(event, "id")) && Truthy(OptMember(event, "transactionId")) ==>
      r == OptMember(event, "transactionId")
    ensures !Truthy(OptMember(event, "id")) && !Truthy(OptMember(event, "transactionId")) ==>
      r == OptMember(event, "referenceId")
    ensures Truthy(r) <==>
      Truthy(OptMember(event, "id")) || Truthy(OptMember(event, "transactionId")) || Truthy(OptMember(event, "referenceId"))
  {
    Or(Or(OptMember(event, "id"), OptMember(event, "transactionId")), OptMember(event, "referenceId"))
  }

  /** `{ status: event.status || 'unknown', amount: event.amount ?? 0, gatewayResponse: event }` */
  function FreshEntry(event: Json): (e: Entry)
    ensures Truthy(e.status) && !Nullish(e.amount) && e.gatewayResponse == event
    ensures Truthy(OptMember(event, "status")) ==> e.status == OptMember(event, "status")
    ensures !Truthy(OptMember(event, "status")) ==> e.status == Str("unknown")
    ensures !Nullish(OptMember(event, "amount")) ==> e.amount == OptMember(event, "amount")
    ensures Nullish(OptMember(event, "amount")) ==> e.amount == Num(0)
  {
    Entry(Or(OptMember(event, "status"), Str("unknown")), Coalesce(OptMember(event, "amount"), Num(0)), event)
  }

  /** The serverless `handler`. Reading `event.id` of a null event throws; the catch
      answers 500. */
  function ServerlessWebhook(httpMethod: string, input: WebhookInput, store: Store): (h: Handled)
    ensures httpMethod != "POST" ==> h == Handled(MethodNotAllowed(), store)
    ensures httpMethod == "POST" && input.Unparseable? ==>
      h == Handled(Response(400, ErrorBody("Webhook JSON inválido")), store)
    ensures httpMethod == "POST" && input.Event? && Nullish(input.event) ==>
      h == Handled(Response(500, ErrorBody("Erro interno no webhook")), store)
    ensures httpMethod == "POST" && input.Event? && !Nullish(input.event) && !Truthy(TransactionId(input.event)) ==>
      h == Handled(Response(400, ErrorBody("Webhook sem ID de transação")), store)
    ensures httpMethod == "POST" && input.Event? && Truthy(TransactionId(input.event)) ==>
      var id := TransactionId(input.event);
      && h.response == Response(200, OkBody())
      && h.store.Keys == store.Keys + {id}
      && h.store[id] == FreshEntry(input.event)
      && (forall k :: k in store && k != id ==> h.store[k] == store[k])
  {
    if httpMethod != "POST" then Handled(MethodNotAllowed(), store)
    else
      match input
      case Unparseable => Handled(Response(400, ErrorBody("Webhook JSON inválido")), store)
      case Event(event) =>
        if Nullish(event) then Handled(Response(500, ErrorBody("Erro interno no webhook")), store)
        else
          var id := TransactionId(event);
          if !Truthy(id) then Handled(Response(400, ErrorBody("Webhook sem ID de transação")), store)
          else Handled(Response(200, OkBody()), store[id := FreshEntry(event)])
  }

  /** Last write wins: what the serverless webhook stores does not depend on what was
      stored before. */
  lemma ServerlessLastWriteWins(event: Json, s1: Store, s2: Store)
    requires Truthy(TransactionId(event))
    ensures var id := TransactionId(event);
      ServerlessWebhook("POST", Event(event), s1).store[id] == ServerlessWebhook("POST", Event(event), s2).store[id]
  {
  }

  /** The serverless webhook keeps its store well-formed. */
  lemma ServerlessPreservesWellFormed(httpMethod: string, input: WebhookInput, store: Store)
    requires WellFormedStore(store)
    ensures WellFormedStore(ServerlessWebhook(httpMethod, input, store).store)
  {
  }

  /** Where the two webhooks part: on a delivery without status or amount the Express
      store keeps "paid" and 10190, the serverless store writes "unknown" and 0. An
      amount of 0 that is present is kept (`??`), an empty status is not (`||`). */
  lemma MergeVersusOverwrite()
    ensures var prior := map[Str("t1") := Entry(Str("paid"), Num(10190), Null)];
      var event := Obj(map["id" := Str("t1")]);
      && ExpressWebhook(prior, event).store[Str("t1")].status == Str("paid")
      && ExpressWebhook(prior, event).store[Str("t1")].amount == Num(10190)
      && ServerlessWebhook("POST", Event(event), prior).store[Str("t1")].status == Str("unknown")
      && ServerlessWebhook("POST", Event(event), prior).store[Str("t1")].amount == Num(0)
    ensures var event := Obj(map["transactionId" := Str("t2"), "status" := Str(""), "amount" := Num(0)]);
      && ServerlessWebhook("POST", Event(event), map[]).store[Str("t2")].amount == Num(0)
      && ServerlessWebhook("POST", Event(event), map[]).store[Str("t2")].status == Str("unknown")
  {
  }
}
