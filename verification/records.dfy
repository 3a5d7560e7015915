/**
 * The two in-memory collections of the simulator (`ordenes` and
 * `confirmaciones`, server.js lines 40-41) and the records they hold.
 */
module Records {

  import opened Optional
  import opened Json

  /**
   * A work order. It is the creation payload spread over the defaults
   * `id`, `timestamp` and `estado`, so any property name may occur and the
   * payload may even replace the defaults: a map of properties.
   */
  datatype WorkOrder = WorkOrder(fields: Object)
  {
    /** The order carries the three properties every creation writes. */
    predicate WellFormed()
    {
      "id" in fields && "timestamp" in fields && "estado" in fields
    }

    /** Property `key`, `None` when the order lacks it. */
    function Get(key: string): Option<Value>
    {
      Property(fields, key)
    }

    /** The `id` property. */
    function Id(): Option<Value>
    {
      Get("id")
    }

    /** `orden.id === ordenId`; an order without an `id` property never matches. */
    predicate HasId(ordenId: Value)
    {
      "id" in fields && StrictEquals(fields["id"], ordenId)
    }
  }

  /** A delivery confirmation: a generated id plus the confirmed order and state. */
  datatype Confirmation = Confirmation(
    id: string,
    ordenId: Value,
    estado: Value,
    mensaje: Value,
    timestamp: string)

  /** Both collections, in insertion order. */
  datatype Store = Store(ordenes: seq<WorkOrder>, confirmaciones: seq<Confirmation>)

  /** The state the process starts with. */
  const Empty: Store := Store([], [])

  /** The ids of all stored confirmations. */
  function ConfirmationIds(cs: seq<Confirmation>): set<string>
  {
    set i | 0 <= i < |cs| :: cs[i].id
  }

  /** No two confirmations share an id. */
  predicate DistinctIds(cs: seq<Confirmation>)
  {
    forall i, j :: 0 <= i < j < |cs| ==> cs[i].id != cs[j].id
  }

  /** What every reachable store satisfies. */
  predicate Valid(s: Store)
  {
    && (forall i :: 0 <= i < |s.ordenes| ==> s.ordenes[i].WellFormed())
    && DistinctIds(s.confirmaciones)
  }

  /**
   * `ordenes.findIndex(orden => orden.id === ordenId)`: the FIRST matching
   * position, `None` where JavaScript returns -1.
   */
  function FindFirst(orders: seq<WorkOrder>, ordenId: Value): (r: Option<nat>)
    ensures r.Some? ==> r.value < |orders| && orders[r.value].HasId(ordenId)
    ensures r.Some? ==> forall j :: 0 <= j < r.value ==> !orders[j].HasId(ordenId)
    ensures r.None? <==> forall j :: 0 <= j < |orders| ==> !orders[j].HasId(ordenId)
    decreases |orders|
  {
    if |orders| == 0 then None
    else if orders[0].HasId(ordenId) then Some(0)
    else Later(FindFirst(orders[1..], ordenId))
  }

  /** A position found in the tail, seen from the whole sequence. */
  function Later(r: Option<nat>): Option<nat>
  {
    match r
    case None => None
    case Some(k) => Some(k + 1)
  }

  /** Two order sequences whose ids agree position by position. */
  predicate SameIds(a: seq<WorkOrder>, b: seq<WorkOrder>)
  {
    |a| == |b| && forall j :: 0 <= j < |a| ==> a[j].Id() == b[j].Id()
  }

  /** The first-match lookup depends on nothing but the ids. */
  lemma FindFirstOnlySeesIds(a: seq<WorkOrder>, b: seq<WorkOrder>, ordenId: Value)
    requires SameIds(a, b)
    ensures FindFirst(a, ordenId) == FindFirst(b, ordenId)
  {
  }

  /**
   * Appending never changes an existing match: a duplicate id is shadowed by
   * the earlier order, and a new order is found only when nothing before it matches.
   */
  lemma {:induction false} FindFirstAfterAppend(orders: seq<WorkOrder>, o: WorkOrder, ordenId: Value)
    ensures FindFirst(orders, ordenId).Some? ==>
              FindFirst(orders + [o], ordenId) == FindFirst(orders, ordenId)
    ensures FindFirst(orders, ordenId).None? ==>
              FindFirst(orders + [o], ordenId) == (if o.HasId(ordenId) then Some(|orders|) else None)
    decreases |orders|
  {
    var longer := orders + [o];
    if |orders| == 0 {
      assert longer == [o];
    } else if orders[0].HasId(ordenId) {
      assert longer[0] == orders[0];
    } else {
      assert longer[0] == orders[0];
      assert longer[1..] == orders[1..] + [o];
      FindFirstAfterAppend(orders[1..], o, ordenId);
      assert FindFirst(longer, ordenId) == Later(FindFirst(orders[1..] + [o], ordenId));
      assert FindFirst(orders, ordenId) == Later(FindFirst(orders[1..], ordenId));
    }
  }
}
