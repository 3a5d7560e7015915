/**
 * The five protected route handlers of server.js, each a pure function from
 * the store (and the request body, the clock value, the generated id) to the
 * response and the next store. Every handler validates before it touches the
 * store, and then performs exactly one append or one in-place update. The
 * handlers log with template literals, which throw on a few JSON objects;
 * the `catch` block then answers 500, after the store may have changed.
 */
module Handlers {

  import opened Optional
  import opened Json
  import opened Records
  import opened Http

  /** The initial state of a new order. */
  const Creado: Value := Str("CREADO")

  // ---------------------------------------------------------------------
  // POST /sap/ordentrabajo

  /** `avisoId`, `claseAviso` and `cliente` are all truthy. */
  predicate OrderDataComplete(body: Object)
  {
    Given(body, "avisoId") && Given(body, "claseAviso") && Given(body, "cliente")
  }

  /**
   * `{ id: avisoId, timestamp: now, estado: 'CREADO', ...ordenData }`: the
   * payload is spread last, so its own `id`, `timestamp` or `estado` wins
   * over the defaults.
   */
  function NewOrder(body: Object, now: string): (o: WorkOrder)
    requires "avisoId" in body
    ensures o.WellFormed()
    ensures o.fields.Keys == body.Keys + {"id", "timestamp", "estado"}
    ensures forall k :: k in body ==> o.fields[k] == body[k]
    ensures o.fields["id"] == (if "id" in body then body["id"] else body["avisoId"])
    ensures o.fields["timestamp"] == (if "timestamp" in body then body["timestamp"] else Str(now))
    ensures o.fields["estado"] == (if "estado" in body then body["estado"] else Creado)
  {
    WorkOrder(map["id" := body["avisoId"], "timestamp" := Str(now), "estado" := Creado] + body)
  }

  function CreateOrder(s: Store, body: Object, now: string): (res: (Response, Store))
    ensures !OrderDataComplete(body) ==> res == (Reject(BadRequest, OrderDataIncomplete), s)
    ensures OrderDataComplete(body) ==>
              && res.1.confirmaciones == s.confirmaciones
              && |res.1.ordenes| == |s.ordenes| + 1
              && res.1.ordenes[..|s.ordenes|] == s.ordenes
              && res.1.ordenes[|s.ordenes|] == NewOrder(body, now)
    ensures OrderDataComplete(body) ==>
              var o := NewOrder(body, now).fields;
              !Unprintable(o["id"]) ==>
                res.0 == Response(Created, true, Some(OrderCreated),
                                  OrderAck(o["id"], o["estado"], o["timestamp"]))
    ensures OrderDataComplete(body) && Unprintable(NewOrder(body, now).fields["id"]) ==>
              res.0 == ServerError
    ensures Valid(s) ==> Valid(res.1)
  {
    if !OrderDataComplete(body) then
      (Reject(BadRequest, OrderDataIncomplete), s)
    else
      var orden := NewOrder(body, now);
      var stored := Store(s.ordenes + [orden], s.confirmaciones);
      assert stored.ordenes[..|s.ordenes|] == s.ordenes;
      // the log line after the push converts `orden.id` to a string
      if Render(orden.fields["id"]).None? then (ServerError, stored)
      else
        var ack := OrderAck(orden.fields["id"], orden.fields["estado"], orden.fields["timestamp"]);
        (Response(Created, true, Some(OrderCreated), ack), stored)
  }

  // ---------------------------------------------------------------------
  // PUT /sap/actualizarorden

  /** `ordenId` and `nuevoEstado` are both truthy. */
  predicate UpdateDataComplete(body: Object)
  {
    Given(body, "ordenId") && Given(body, "nuevoEstado")
  }

  /**
   * The in-place update of the found order: `estado` and
   * `ultimaActualizacion` are always written, `informacionAdicional` only
   * when it is truthy; every other property, `id` included, is kept.
   */
  function Revise(o: WorkOrder, nuevoEstado: Value, now: string, info: Option<Value>): (o': WorkOrder)
    ensures o'.fields.Keys ==
              o.fields.Keys + {"estado", "ultimaActualizacion"}
              + (if TruthySome(info) then {"informacionAdicional"} else {})
    ensures o'.fields["estado"] == nuevoEstado
    ensures o'.fields["ultimaActualizacion"] == Str(now)
    ensures TruthySome(info) ==> o'.fields["informacionAdicional"] == info.value
    ensures forall k :: k in o.fields && k != "estado" && k != "ultimaActualizacion"
                        && !(k == "informacionAdicional" && TruthySome(info))
                        ==> o'.fields[k] == o.fields[k]
    ensures o'.Id() == o.Id()
    ensures o.WellFormed() ==> o'.WellFormed()
  {
    var stamped := o.fields["estado" := nuevoEstado]["ultimaActualizacion" := Str(now)];
    if TruthySome(info) then WorkOrder(stamped["informacionAdicional" := info.value])
    else WorkOrder(stamped)
  }

  function UpdateOrder(s: Store, body: Object, now: string): (res: (Response, Store))
    ensures !UpdateDataComplete(body) ==> res == (Reject(BadRequest, UpdateDataIncomplete), s)
    ensures UpdateDataComplete(body) ==>
              (forall j :: 0 <= j < |s.ordenes| ==> !s.ordenes[j].HasId(body["ordenId"])) ==>
              && res.1 == s
              && (Unprintable(body["ordenId"]) ==> res.0 == ServerError)
              && (!Unprintable(body["ordenId"]) ==>
                    res.0 == Reject(NotFound, OrderNotFound(Render(body["ordenId"]).value)))
    ensures UpdateDataComplete(body) ==>
              var m := FindFirst(s.ordenes, body["ordenId"]);
              m.Some? ==>
                && (!Unprintable(body["nuevoEstado"]) ==>
                      res.0 == Response(Ok, true, Some(OrderUpdated),
                                        OrderAck(body["ordenId"], body["nuevoEstado"], Str(now))))
                && (Unprintable(body["nuevoEstado"]) ==> res.0 == ServerError)
                && res.1.confirmaciones == s.confirmaciones
                && |res.1.ordenes| == |s.ordenes|
                && res.1.ordenes[m.value] ==
                     Revise(s.ordenes[m.value], body["nuevoEstado"], now, Property(body, "informacionAdicional"))
                && forall j :: 0 <= j < |s.ordenes| && j != m.value ==> res.1.ordenes[j] == s.ordenes[j]
    ensures SameIds(s.ordenes, res.1.ordenes)
    ensures Valid(s) ==> Valid(res.1)
  {
    if !UpdateDataComplete(body) then
      (Reject(BadRequest, UpdateDataIncomplete), s)
    else
      var ordenId := body["ordenId"];
      var nuevoEstado := body["nuevoEstado"];
      match FindFirst(s.ordenes, ordenId)
      case None =>
        // the 404 message is a template literal over `ordenId`
        (match Render(ordenId)
         case None => (ServerError, s)
         case Some(text) => (Reject(NotFound, OrderNotFound(text)), s))
      case Some(i) =>
        var updated := Revise(s.ordenes[i], nuevoEstado, now, Property(body, "informacionAdicional"));
        var stored := Store(s.ordenes[i := updated], s.confirmaciones);
        // the log line after the update converts `ordenId` and `nuevoEstado`
        if Render(ordenId).None? || Render(nuevoEstado).None? then (ServerError, stored)
        else (Response(Ok, true, Some(OrderUpdated), OrderAck(ordenId, nuevoEstado, Str(now))), stored)
  }

  // ---------------------------------------------------------------------
  // POST /sap/confirmacion

  /** `ordenId` and `estado` are both truthy. */
  predicate ConfirmationDataComplete(body: Object)
  {
    Given(body, "ordenId") && Given(body, "estado")
  }

  /**
   * Records a confirmation under the generated id `freshId`. The referenced
   * order is not looked up: any `ordenId` is accepted.
   */
  function RecordConfirmation(s: Store, body: Object, now: string, freshId: string): (res: (Response, Store))
    ensures !ConfirmationDataComplete(body) ==> res == (Reject(BadRequest, ConfirmationDataIncomplete), s)
    ensures ConfirmationDataComplete(body) ==>
              var printable := !Unprintable(body["ordenId"]) && !Unprintable(body["estado"]);
              && (printable ==>
                    res.0 == Response(Ok, true, Some(ConfirmationRecorded),
                                      ConfirmationAck(freshId, body["ordenId"], body["estado"])))
              && (!printable ==> res.0 == ServerError)
              && res.1.ordenes == s.ordenes
              && |res.1.confirmaciones| == |s.confirmaciones| + 1
              && res.1.confirmaciones[..|s.confirmaciones|] == s.confirmaciones
    ensures ConfirmationDataComplete(body) ==>
              var c := res.1.confirmaciones[|s.confirmaciones|];
              && c.id == freshId
              && c.ordenId == body["ordenId"]
              && c.estado == body["estado"]
              && c.mensaje == (if Given(body, "mensaje") then body["mensaje"] else Str(""))
              && c.timestamp == now
    ensures ConfirmationDataComplete(body) ==>
              ConfirmationIds(res.1.confirmaciones) == ConfirmationIds(s.confirmaciones) + {freshId}
    ensures freshId !in ConfirmationIds(s.confirmaciones) && Valid(s) ==> Valid(res.1)
  {
    if !ConfirmationDataComplete(body) then
      (Reject(BadRequest, ConfirmationDataIncomplete), s)
    else
      var mensaje := if Given(body, "mensaje") then body["mensaje"] else Str("");
      var c := Confirmation(freshId, body["ordenId"], body["estado"], mensaje, now);
      var cs := s.confirmaciones + [c];
      assert cs[..|s.confirmaciones|] == s.confirmaciones;
      assert ConfirmationIds(cs) == ConfirmationIds(s.confirmaciones) + {freshId} by {
        assert forall i :: 0 <= i < |s.confirmaciones| ==> cs[i] == s.confirmaciones[i];
        assert cs[|s.confirmaciones|] == c;
      }
      var stored := Store(s.ordenes, cs);
      // the log line after the push converts `ordenId` and `estado`
      if Render(body["ordenId"]).None? || Render(body["estado"]).None? then (ServerError, stored)
      else
        (Response(Ok, true, Some(ConfirmationRecorded), ConfirmationAck(freshId, body["ordenId"], body["estado"])),
         stored)
  }

  // ---------------------------------------------------------------------
  // GET /sap/ordenes and GET /sap/confirmaciones

  function ListOrders(s: Store): (res: (Response, Store))
    ensures res.1 == s
    ensures res.0.status == Ok && res.0.success && res.0.data.OrderListing?
    ensures res.0.data.count == |res.0.data.orders| && res.0.data.orders == s.ordenes
  {
    (Response(Ok, true, None, OrderListing(|s.ordenes|, s.ordenes)), s)
  }

  function ListConfirmations(s: Store): (res: (Response, Store))
    ensures res.1 == s
    ensures res.0.status == Ok && res.0.success && res.0.data.ConfirmationListing?
    ensures res.0.data.count == |res.0.data.confirmations| && res.0.data.confirmations == s.confirmaciones
  {
    (Response(Ok, true, None, ConfirmationListing(|s.confirmaciones|, s.confirmaciones)), s)
  }

  // ---------------------------------------------------------------------
  // Properties relating several calls

  /**
   * Repeating an update gives every order the same `estado` and the same
   * answer apart from the new clock value; with the same clock value the
   * second update changes nothing at all.
   */
  lemma {:induction false} UpdateIsIdempotent(s: Store, body: Object, t1: string, t2: string)
    ensures
      var (r1, s1) := UpdateOrder(s, body, t1);
      var (r2, s2) := UpdateOrder(s1, body, t2);
      && r2.status == r1.status
      && r2.message == r1.message
      && |s2.ordenes| == |s1.ordenes|
      && (forall j :: 0 <= j < |s1.ordenes| ==> s2.ordenes[j].fields.Keys == s1.ordenes[j].fields.Keys)
      && (forall j :: 0 <= j < |s1.ordenes| ==> s2.ordenes[j].Get("estado") == s1.ordenes[j].Get("estado"))
      && (t1 == t2 ==> s2 == s1 && r2 == r1)
  {
    var (r1, s1) := UpdateOrder(s, body, t1);
    if UpdateDataComplete(body) {
      var ordenId := body["ordenId"];
      FindFirstOnlySeesIds(s.ordenes, s1.ordenes, ordenId);
      match FindFirst(s.ordenes, ordenId)
      case None =>
        assert s1 == s;
      case Some(i) =>
        UpdateAtMatch(s, body, t1, i);
        UpdateAtMatch(s1, body, t2, i);
        ReviseTwice(s.ordenes[i], body["nuevoEstado"], t1, t2, Property(body, "informacionAdicional"));
    }
  }

  /** The outcome of an update whose id first matches at `i`. */
  lemma UpdateAtMatch(s: Store, body: Object, now: string, i: nat)
    requires UpdateDataComplete(body)
    requires FindFirst(s.ordenes, body["ordenId"]) == Some(i)
    ensures
      var info := Property(body, "informacionAdicional");
      var (r, s') := UpdateOrder(s, body, now);
      && s' == Store(s.ordenes[i := Revise(s.ordenes[i], body["nuevoEstado"], now, info)], s.confirmaciones)
      && r.status == (if Unprintable(body["nuevoEstado"]) then InternalServerError else Ok)
      && r.message == Some(if Unprintable(body["nuevoEstado"]) then InternalError else OrderUpdated)
  {
  }

  /** Revising an order twice with the same state and information. */
  lemma ReviseTwice(o: WorkOrder, nuevoEstado: Value, t1: string, t2: string, info: Option<Value>)
    ensures
      var once := Revise(o, nuevoEstado, t1, info);
      var twice := Revise(once, nuevoEstado, t2, info);
      && twice.fields.Keys == once.fields.Keys
      && twice.Get("estado") == once.Get("estado")
      && twice.Id() == once.Id()
      && (t1 == t2 ==> twice == once)
  {
    var once := Revise(o, nuevoEstado, t1, info);
    var twice := Revise(once, nuevoEstado, t2, info);
    if t1 == t2 {
      assert twice.fields == once.fields;
    }
  }

  /**
   * Creating an order whose id is already taken appends a second record
   * that the first-match lookup never reaches: later updates keep hitting
   * the earlier order.
   */
  lemma DuplicateIdIsShadowed(s: Store, body: Object, now: string, ordenId: Value)
    requires FindFirst(s.ordenes, ordenId).Some?
    ensures FindFirst(CreateOrder(s, body, now).1.ordenes, ordenId) == FindFirst(s.ordenes, ordenId)
  {
  }

  /** A newly created order is what a later update with its id finds, unless an earlier order shares it. */
  lemma CreatedOrderIsFound(s: Store, body: Object, now: string)
    requires OrderDataComplete(body)
    requires "id" !in body
    requires !body["avisoId"].Arr? && !body["avisoId"].Obj?
    requires forall j :: 0 <= j < |s.ordenes| ==> !s.ordenes[j].HasId(body["avisoId"])
    ensures FindFirst(CreateOrder(s, body, now).1.ordenes, body["avisoId"]) == Some(|s.ordenes|)
  {
  }

  /**
   * Creating then listing shows one more order, last in the listing, whose
   * `id` is the `avisoId` and whose `estado` is CREADO unless the payload
   * supplies its own.
   */
  lemma ListingAfterCreate(s: Store, body: Object, now: string)
    requires OrderDataComplete(body)
    ensures
      var listing := ListOrders(CreateOrder(s, body, now).1).0.data;
      && listing.count == |s.ordenes| + 1
      && listing.orders[..|s.ordenes|] == s.ordenes
      && listing.orders[|s.ordenes|].Get("id") == Some(if "id" in body then body["id"] else body["avisoId"])
      && listing.orders[|s.ordenes|].Get("estado") == Some(if "estado" in body then body["estado"] else Creado)
  {
  }

  /**
   * Updating then listing shows the same number of orders, with the first
   * match carrying the new `estado` and the update's clock value.
   */
  lemma ListingAfterUpdate(s: Store, body: Object, now: string)
    requires UpdateDataComplete(body)
    requires FindFirst(s.ordenes, body["ordenId"]).Some?
    ensures
      var listing := ListOrders(UpdateOrder(s, body, now).1).0.data;
      var i := FindFirst(s.ordenes, body["ordenId"]).value;
      && listing.count == |s.ordenes|
      && listing.orders[i].Get("estado") == Some(body["nuevoEstado"])
      && listing.orders[i].Get("ultimaActualizacion") == Some(Str(now))
      && listing.orders[i].Id() == s.ordenes[i].Id()
  {
  }

  /**
   * Confirming then listing shows one more confirmation, last, after the
   * unchanged earlier ones, under the generated id and with `mensaje`
   * defaulted to the empty string.
   */
  lemma ListingAfterConfirm(s: Store, body: Object, now: string, freshId: string)
    requires ConfirmationDataComplete(body)
    ensures
      var listing := ListConfirmations(RecordConfirmation(s, body, now, freshId).1).0.data;
      && listing.count == |s.confirmaciones| + 1
      && listing.confirmations[..|s.confirmaciones|] == s.confirmaciones
      && listing.confirmations[|s.confirmaciones|].id == freshId
      && listing.confirmations[|s.confirmaciones|].ordenId == body["ordenId"]
      && listing.confirmations[|s.confirmaciones|].mensaje ==
           (if Given(body, "mensaje") then body["mensaje"] else Str(""))
  {
  }
}
