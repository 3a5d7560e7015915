/**
 * The protected routes of server.js: every request passes the token gate
 * first and reaches its handler only on success. A run of the server is a
 * sequence of such calls against one store.
 */
module Server {

  import opened Optional
  import opened Json
  import opened Records
  import opened Http
  import Auth
  import opened Handlers

  /** A request to one of the five protected routes, with its parsed body. */
  datatype Request =
    | PostOrder(body: Object)            // POST /sap/ordentrabajo
    | PutOrder(body: Object)             // PUT /sap/actualizarorden
    | PostConfirmation(body: Object)     // POST /sap/confirmacion
    | GetOrders                          // GET /sap/ordenes
    | GetConfirmations                   // GET /sap/confirmaciones

  /** The route handler alone, once the gate has let the request through. */
  function Route(s: Store, req: Request, now: string, freshId: string): (res: (Response, Store))
    ensures !req.PostConfirmation? ==> res.1.confirmaciones == s.confirmaciones
    ensures req.GetOrders? || req.GetConfirmations? ==> res.1 == s
  {
    match req
    case PostOrder(body) => CreateOrder(s, body, now)
    case PutOrder(body) => UpdateOrder(s, body, now)
    case PostConfirmation(body) => RecordConfirmation(s, body, now, freshId)
    case GetOrders => ListOrders(s)
    case GetConfirmations => ListConfirmations(s)
  }

  /**
   * One protected request: the `Authorization` header, the configured
   * `AUTH_TOKEN`, the clock value and the id `uuidv4` would return.
   */
  function Handle(s: Store, req: Request, authorization: Option<string>, secret: Option<string>,
                  now: string, freshId: string): (res: (Response, Store))
    ensures Auth.Validate(authorization, secret) == Auth.Unauthenticated ==>
              res == (Reject(Unauthorized, AuthenticationRequired), s)
    ensures Auth.Validate(authorization, secret) == Auth.WrongToken ==>
              res == (Reject(Unauthorized, InvalidToken), s)
    ensures secret.None? ==> res.0.status == Unauthorized && res.1 == s
    ensures Auth.Validate(authorization, secret) == Auth.Pass ==> res == Route(s, req, now, freshId)
  {
    match Auth.Validate(authorization, secret)
    case Unauthenticated => (Reject(Unauthorized, AuthenticationRequired), s)
    case WrongToken => (Reject(Unauthorized, InvalidToken), s)
    case Pass => Route(s, req, now, freshId)
  }

  /**
   * Every request the gate or a handler's validation rejects (400, 401, 404)
   * leaves the store as it was. The only other failure is the 500 of a
   * throwing log line, which only the three mutating routes can answer.
   */
  lemma RejectionNeverMutates(s: Store, req: Request, authorization: Option<string>,
                              secret: Option<string>, now: string, freshId: string)
    ensures var res := Handle(s, req, authorization, secret, now, freshId);
            !res.0.success ==> res.0.status in {BadRequest, Unauthorized, NotFound, InternalServerError}
    ensures var res := Handle(s, req, authorization, secret, now, freshId);
            res.0.status in {BadRequest, Unauthorized, NotFound} ==> res.1 == s
    ensures var res := Handle(s, req, authorization, secret, now, freshId);
            res.0.status == InternalServerError ==> req.PostOrder? || req.PutOrder? || req.PostConfirmation?
  {
  }

  /**
   * A 500 does not mean nothing happened: an order whose `id` is an object
   * with a `toString` property is stored, and only then does the log line
   * throw, so a client retrying the request stores it a second time.
   */
  lemma ServerErrorAfterStoring(token: string, now: string)
    ensures
      var secret := Some(token);
      var auth := Some(Auth.BearerHeader(token));
      var body := map["avisoId" := Obj(map["toString" := Num(1)]), "claseAviso" := Str("X"),
                      "cliente" := Str("C1")];
      var (r1, s1) := Handle(Empty, PostOrder(body), auth, secret, now, "");
      var (r2, s2) := Handle(s1, PostOrder(body), auth, secret, now, "");
      && r1 == ServerError && |s1.ordenes| == 1
      && r2 == ServerError && |s2.ordenes| == 2
  {
  }

  /**
   * `t` grew from `s` by appends and in-place updates only: no order is
   * removed or has its `id` changed, and the confirmations of `s` are a
   * prefix of those of `t`.
   */
  predicate Extends(s: Store, t: Store)
  {
    && |s.ordenes| <= |t.ordenes|
    && (forall i :: 0 <= i < |s.ordenes| ==> t.ordenes[i].Id() == s.ordenes[i].Id())
    && s.confirmaciones <= t.confirmaciones
  }

  lemma ExtendsIsTransitive(s: Store, t: Store, u: Store)
    requires Extends(s, t) && Extends(t, u)
    ensures Extends(s, u)
  {
  }

  lemma HandleExtends(s: Store, req: Request, authorization: Option<string>, secret: Option<string>,
                      now: string, freshId: string)
    ensures Extends(s, Handle(s, req, authorization, secret, now, freshId).1)
  {
  }

  /**
   * The store invariant survives every request whose generated id is not
   * already taken.
   */
  lemma HandlePreservesValid(s: Store, req: Request, authorization: Option<string>, secret: Option<string>,
                             now: string, freshId: string)
    requires Valid(s)
    requires freshId !in ConfirmationIds(s.confirmaciones)
    ensures Valid(Handle(s, req, authorization, secret, now, freshId).1)
  {
  }

  /** The confirmation ids a request can add: at most its own generated id. */
  lemma HandleConfirmationIds(s: Store, req: Request, authorization: Option<string>, secret: Option<string>,
                              now: string, freshId: string)
    ensures ConfirmationIds(Handle(s, req, authorization, secret, now, freshId).1.confirmaciones)
            <= ConfirmationIds(s.confirmaciones) + {freshId}
  {
  }

  /** One request as it reaches the process. */
  datatype Call = Call(request: Request, authorization: Option<string>, now: string, freshId: string)

  /**
   * The store after the calls have been served one after another; each
   * call adds at most one order and at most one confirmation.
   */
  function Run(s: Store, secret: Option<string>, calls: seq<Call>): (r: Store)
    ensures |s.ordenes| <= |r.ordenes| <= |s.ordenes| + |calls|
    ensures |s.confirmaciones| <= |r.confirmaciones| <= |s.confirmaciones| + |calls|
    decreases |calls|
  {
    if |calls| == 0 then s
    else
      var c := calls[0];
      Run(Handle(s, c.request, c.authorization, secret, c.now, c.freshId).1, secret, calls[1..])
  }

  /** Over any run, orders are only appended or updated and confirmations only appended. */
  lemma {:induction false} RunIsAppendOnly(s: Store, secret: Option<string>, calls: seq<Call>)
    ensures Extends(s, Run(s, secret, calls))
    decreases |calls|
  {
    if |calls| > 0 {
      var c := calls[0];
      var s1 := Handle(s, c.request, c.authorization, secret, c.now, c.freshId).1;
      HandleExtends(s, c.request, c.authorization, secret, c.now, c.freshId);
      RunIsAppendOnly(s1, secret, calls[1..]);
      ExtendsIsTransitive(s, s1, Run(s1, secret, calls[1..]));
    }
  }

  /** The generated ids of a run are pairwise distinct and none is already stored in `s`. */
  predicate FreshIds(s: Store, calls: seq<Call>)
  {
    && (forall i, j :: 0 <= i < j < |calls| ==> calls[i].freshId != calls[j].freshId)
    && (forall i :: 0 <= i < |calls| ==> calls[i].freshId !in ConfirmationIds(s.confirmaciones))
  }

  /**
   * With `uuidv4` returning fresh ids, every store a run reaches is valid:
   * orders keep `id`, `timestamp` and `estado`, and confirmation ids stay unique.
   */
  lemma {:induction false} RunPreservesValid(s: Store, secret: Option<string>, calls: seq<Call>)
    requires Valid(s)
    requires FreshIds(s, calls)
    ensures Valid(Run(s, secret, calls))
    decreases |calls|
  {
    if |calls| > 0 {
      var c := calls[0];
      var s1 := Handle(s, c.request, c.authorization, secret, c.now, c.freshId).1;
      HandlePreservesValid(s, c.request, c.authorization, secret, c.now, c.freshId);
      HandleConfirmationIds(s, c.request, c.authorization, secret, c.now, c.freshId);
      var rest := calls[1..];
      assert FreshIds(s1, rest) by {
        forall i | 0 <= i < |rest|
          ensures rest[i].freshId !in ConfirmationIds(s1.confirmaciones)
        {
          assert rest[i] == calls[i + 1];
        }
        forall i, j | 0 <= i < j < |rest|
          ensures rest[i].freshId != rest[j].freshId
        {
          assert rest[i] == calls[i + 1] && rest[j] == calls[j + 1];
        }
      }
      RunPreservesValid(s1, secret, rest);
    }
  }

  /** The creation payload of the walk-through. */
  const OrderA1: Object := map["avisoId" := Str("A1"), "claseAviso" := Str("X"), "cliente" := Str("C1")]

  /** The update payload of the walk-through. */
  const StartA1: Object := map["ordenId" := Str("A1"), "nuevoEstado" := Str("EN_PROCESO")]

  /**
   * The walk-through of the service: create order A1, move it to
   * EN_PROCESO, and list it; a request without a header changes nothing.
   */
  lemma Walkthrough(token: string, t0: string, t1: string)
    ensures
      var secret := Some(token);
      var auth := Some(Auth.BearerHeader(token));
      var (r1, s1) := Handle(Empty, PostOrder(OrderA1), auth, secret, t0, "");
      var (r2, s2) := Handle(s1, PutOrder(StartA1), auth, secret, t1, "");
      var (r3, s3) := Handle(s2, GetOrders, None, secret, t1, "");
      && r1.status == Created && r1.data == OrderAck(Str("A1"), Creado, Str(t0))
      && r2.status == Ok
      && |s2.ordenes| == 1 && s2.ordenes[0].Get("estado") == Some(Str("EN_PROCESO"))
      && r3 == Reject(Unauthorized, AuthenticationRequired) && s3 == s2
  {
    var secret := Some(token);
    var auth := Some(Auth.BearerHeader(token));
    assert Auth.Validate(auth, secret) == Auth.Pass;
    var s1 := CreateOrder(Empty, OrderA1, t0).1;
    assert Handle(Empty, PostOrder(OrderA1), auth, secret, t0, "") == CreateOrder(Empty, OrderA1, t0);
    assert Handle(s1, PutOrder(StartA1), auth, secret, t1, "") == UpdateOrder(s1, StartA1, t1);
    WalkthroughCreate(t0);
    WalkthroughUpdate(t0, t1);
  }

  /** The second step of the walk-through, past the gate. */
  lemma WalkthroughUpdate(t0: string, t1: string)
    ensures
      var (r2, s2) := UpdateOrder(CreateOrder(Empty, OrderA1, t0).1, StartA1, t1);
      && r2.status == Ok
      && |s2.ordenes| == 1 && s2.ordenes[0].Get("estado") == Some(Str("EN_PROCESO"))
  {
    var s1 := CreateOrder(Empty, OrderA1, t0).1;
    WalkthroughCreate(t0);
    assert UpdateDataComplete(StartA1);
    assert FindFirst(s1.ordenes, Str("A1")) == Some(0);
    UpdateAtMatch(s1, StartA1, t1, 0);
  }

  /** The first step of the walk-through, past the gate. */
  lemma WalkthroughCreate(t0: string)
    ensures
      var (r1, s1) := CreateOrder(Empty, OrderA1, t0);
      && r1.status == Created && r1.data == OrderAck(Str("A1"), Creado, Str(t0))
      && s1 == Store([NewOrder(OrderA1, t0)], [])
      && s1.ordenes[0].HasId(Str("A1"))
  {
    assert OrderDataComplete(OrderA1);
  }
}
