# SAP work-order simulator: verified model

A Dafny model of the request logic of a mock HTTP service that imitates part
of an SAP work-order interface for loss control ("Control de Pérdidas"). The
service keeps two in-memory collections, `ordenes` (inspection work orders)
and `confirmaciones` (delivery confirmations). Five routes are protected by a
bearer-token gate:

- `POST /sap/ordentrabajo` creates an order;
- `PUT /sap/actualizarorden` changes the state of the first order with a given id;
- `POST /sap/confirmacion` records a confirmation;
- `GET /sap/ordenes` and `GET /sap/confirmaciones` list the two collections.

Modules, one per part of `server.js`:

- `Optional`, `Json` (json.dfy): parsed JSON values, plus the JavaScript operations the
  handlers apply to them. These are truthiness (`!x`, `x || ''`), strict
  equality (`===`) and string conversion inside a template literal.
- `Records` (records.dfy): `WorkOrder`, `Confirmation` and the `Store` holding
  both sequences, the store invariant `Valid`, and the first-match lookup
  `FindFirst` (`Array.prototype.findIndex`).
- `Http` (http.dfy): status codes, the exact message texts and the response envelope.
- `Auth` (auth.dfy): `validateToken`.
- `Handlers` (handlers.dfy): the five route handlers as pure functions from a
  store to a `(Response, Store)` pair.
- `Server` (server.dfy): the gate in front of each handler, and runs of many requests.

A work order is a map of properties and not a record with fixed fields. The
creation handler spreads the caller's payload after the defaults
(`{id: avisoId, timestamp, estado: 'CREADO', ...payload}`). So a payload that
carries its own `id`, `timestamp` or `estado` replaces the default, and
`NewOrder` states this. Nothing checks that order ids are unique. A second
order with an existing id is appended anyway, and it is shadowed: the
first-match lookup never reaches it (`DuplicateIdIsShadowed`).

The clock (`new Date().toISOString()`) and the id generator (`uuidv4()`) are
parameters: `now` and `freshId`. The handler does not require `freshId` to be
new. Uniqueness of confirmation ids is proved under the hypothesis that it is
new (`RecordConfirmation`, `HandlePreservesValid`, `RunPreservesValid`).

The handlers log with template literals (`${ordenId}`), and the 404 message is
one. Converting a JSON object that has its own `toString` property throws a
`TypeError`, and so does converting an array holding such an object. JSON can
only give that property a non-callable value, so neither `toString` nor
`Object.prototype.valueOf` yields a primitive. `Render` returns `None` exactly
then (`Unprintable`). The handler's `catch` block then answers 500. For create
(line 108), update (line 163) and confirm (line 210) the failing line comes
after the store was changed. So a 500 can follow a stored order or
confirmation, and a client that retries stores it twice
(`ServerErrorAfterStoring`). The `error` property of that 500 is the engine's
message text, taken here as V8's "Cannot convert object to primitive value".

`AUTH_TOKEN` is the parameter `secret`, and `None` means the environment
variable is unset. Then `token !== undefined` always holds and no request gets
through.

## Model

| member | source | states |
|---|---|---|
| Json.Truthy | server.js:90 | A JSON value is falsy exactly when it is `null`, `false`, `0` or `""`. |
| Json.Given | server.js:137 | `!body.x` holds exactly when the property is absent or holds one of the four falsy values. |
| Json.StrictEquals | server.js:145 | `===` never coerces: strictly equal values are identical. Equal primitives are strictly equal. An array or object is never strictly equal to a value from another request. |
| Json.NatToString | server.js:150 | A natural number prints as a non-empty string of decimal digits with no leading zero, and those digits denote the number. |
| Json.IntToString | server.js:150 | An integer prints as a non-empty string of decimal digits without leading zeros (`0` prints as `"0"`), with a leading `-` when negative. The digits read back as the integer's magnitude. |
| Json.Render | server.js:150 | Template conversion fails exactly on an object with a `toString` property or an array holding one. Strings print as themselves, integers in decimal, and other objects as `[object Object]`. |
| Json.Join | server.js:150 | Printing an array fails exactly when one of its elements fails to print. |
| Http.Text | server.js:48-215 | The 404 text is `Orden `, the printed id, then ` no encontrada`, and the id text can be read back from it. The other messages are the fixed Spanish literals of the source. |
| Http.TextIsInjective | server.js:48-215 | Different outcomes never share a message text, and two 404 texts are equal only for the same printed id. |
| Auth.Validate | server.js:44-58 | A request passes exactly when a secret is configured and the header equals `"Bearer "` followed by it. The answer is "Autenticación requerida" exactly when the header is absent or lacks the prefix. Otherwise it is "Token inválido". An unset secret lets nothing pass. |
| Auth.BearerSplit | server.js:51-53 | A header with the prefix equals `"Bearer "` plus a token exactly when `substring(7)` is that token. |
| Records.FindFirst | server.js:145-147 | The result is the least index whose order has an `id` strictly equal to `ordenId`. It is `None` (the -1 of `findIndex`) exactly when no order matches. |
| Records.FindFirstOnlySeesIds | server.js:145 | Two order sequences with the same ids at every position give the same lookup result, whatever their other properties. |
| Records.FindFirstAfterAppend | server.js:145 | Appending an order never moves an existing match. The appended order is found only when no earlier order matches. |
| Handlers.NewOrder | server.js:98-103 | The new order has every payload property with the payload's value. `id` is `avisoId`, `timestamp` is the clock value and `estado` is `CREADO`, except where the payload supplies its own value for that property. |
| Handlers.CreateOrder | server.js:87-127 | If `avisoId`, `claseAviso` or `cliente` is falsy, the answer is 400 with the store unchanged. Otherwise exactly one order is appended, and earlier orders and all confirmations stay as they were. The answer is 201 echoing the new order's `id`, `estado` and `timestamp`, or 500 when that `id` cannot be printed; the order stays stored either way. `Valid` is preserved. |
| Handlers.Revise | server.js:155-161 | The updated order has `estado` set to the new state and `ultimaActualizacion` set to the clock value. `informacionAdicional` is replaced only when it is truthy. Every other property, `id` included, keeps its value. |
| Handlers.UpdateOrder | server.js:134-182 | A falsy `ordenId` or `nuevoEstado` gives 400, and no matching order gives 404 with the printed id (500 when the id cannot be printed). All three leave the store unchanged. Otherwise only the first matching order is revised, and the length and all other orders and confirmations are unchanged. The answer is 200 with the id, the new state and the clock value, or 500 after the change when `nuevoEstado` cannot be printed. Ids and `Valid` are preserved. |
| Handlers.UpdateAtMatch | server.js:145-174 | When the id first matches at index `i`, the update revises exactly that order. The answer is 200 "Orden actualizada exitosamente", or 500 when the new state cannot be printed. |
| Handlers.ReviseTwice | server.js:155-161 | Revising an order twice with the same state leaves the same properties, the same `estado` and the same `id`. With the same clock value it is the same order. |
| Handlers.RecordConfirmation | server.js:189-229 | A falsy `ordenId` or `estado` gives 400 with the store unchanged. Otherwise orders are untouched, whether or not `ordenId` exists. Exactly one confirmation is appended with the generated id, and its `mensaje` defaults to `""` when falsy. The answer is 200, or 500 after the append when `ordenId` or `estado` cannot be printed. The set of ids grows by exactly the generated id, and ids stay distinct when it is new. |
| Handlers.ListOrders | server.js:234-240 | The order listing answers 200 with `success`. It lists exactly the stored orders in insertion order, `count` equals the number listed, and the store is unchanged. |
| Handlers.ListConfirmations | server.js:243-249 | The confirmation listing answers 200 with `success`. It lists exactly the stored confirmations in insertion order, `count` equals the number listed, and the store is unchanged. |
| Handlers.UpdateIsIdempotent | server.js:145-163 | Repeating an update gives the same status and message. Every order ends with the same properties and the same `estado`. With the same clock value the second update changes nothing. |
| Handlers.DuplicateIdIsShadowed | server.js:98-106 | Creating an order whose id is already present does not change which order a later lookup by that id finds. |
| Handlers.CreatedOrderIsFound | server.js:98-106 | Suppose no earlier order has the `avisoId` and the payload has no `id` of its own. Then a lookup by `avisoId` finds the new order at the end. |
| Handlers.ListingAfterCreate | server.js:234-240 | The order listing after a create has `count` one more than before. It holds the earlier orders unchanged and in order, then the new order, whose `id` is `avisoId` and whose `estado` is `CREADO` unless the payload overrides them. |
| Handlers.ListingAfterUpdate | server.js:234-240 | The order listing after a successful update has the same `count`. The first matching order shows the new `estado`, the clock value as `ultimaActualizacion`, and its old `id`. |
| Handlers.ListingAfterConfirm | server.js:243-249 | The confirmation listing after a confirmation has `count` one more than before. It holds the earlier confirmations unchanged and in order, then the new one with the generated id, the given `ordenId` and `mensaje` defaulted to `""`. |
| Server.Handle | server.js:44-58 | A request the gate rejects gets 401 with the gate's message and the store unchanged. A request the gate passes is exactly its route handler's result. |
| Server.Route | server.js:85-249 | Only the confirmation route touches the confirmations. The two listing routes change nothing. |
| Server.RejectionNeverMutates | server.js:85-231 | Every unsuccessful answer is 400, 401, 404 or 500. The first three leave both collections unchanged. A 500 comes only from the three mutating routes. |
| Server.ServerErrorAfterStoring | server.js:98-127 | A create whose `avisoId` is an object with a `toString` property answers 500 but stores the order. Sending it again answers 500 again and stores a second copy. |
| Server.HandleExtends | server.js:98-208 | A request never removes an order, never changes an order's id and never alters a stored confirmation. |
| Server.HandlePreservesValid | server.js:98-208 | Given a new generated id, every request keeps `Valid`. Every order has `id`, `timestamp` and `estado`, and confirmation ids are distinct. |
| Server.HandleConfirmationIds | server.js:199-208 | A request adds no confirmation id other than its own generated one. |
| Server.Run | server.js:40-41 | Over a sequence of requests the two collections never shrink. Each request adds at most one order and at most one confirmation. |
| Server.RunIsAppendOnly | server.js:40-41 | Over any sequence of requests, orders are only appended or updated without changing their ids, and confirmations are only appended. |
| Server.RunPreservesValid | server.js:199-208 | If the generated ids of a run are pairwise distinct and new, the final store is valid. In particular its confirmation ids are unique. |
| Server.Walkthrough | server.js:85-240 | Creating order A1 with a valid token gives 201, `CREADO` and the clock value. Updating it to `EN_PROCESO` gives 200 and the stored state changes. Listing without a header gives 401 "Autenticación requerida" and changes nothing. |
| Server.WalkthroughCreate | server.js:98-119 | Creating A1 in an empty store answers 201 with id `A1`, `CREADO` and the clock value, and stores that one order. |
| Server.WalkthroughUpdate | server.js:145-174 | Updating A1 to `EN_PROCESO` right after its creation answers 200, and the single stored order has the new `estado`. |

## Left out

- Express wiring: `app.listen` (called twice), dotenv loading, CORS and body parsing. The body parser is assumed to turn a missing body into `{}`, as Express 4 does. A JSON array body is not modelled; only object bodies are.
- Static routes `/`, `/sap` and `/sap/health`: they return constant JSON.
- Timestamps and uuids: they are parameters. No claim is made that a later timestamp is fresher.
- Console logging itself: only the string conversion inside the log lines is modelled, because it can throw. The `catch` blocks are modelled only for that exception, the only one the modelled logic can raise. The text of `error.message` is taken as V8's wording.
- Concurrency: each request is handled atomically, one after another, as Node's event loop does.
- JSON numbers are integers of magnitude at most 2^53 - 1 (`SafeInteger`). Larger literals, which `JSON.parse` rounds so that distinct literals can become `===`, are not modelled, and neither is their exponent form (`1e+21`) when printed. Non-integer numbers are not modelled either. `-0` behaves like `0` in every modelled operation.
- Strings are sequences of Unicode scalar values. JavaScript strings are UTF-16 code units, and `JSON.parse` accepts a lone surrogate such as `"\ud800"`. Such strings are not modelled.
- The order of properties inside a stored order, and so the order of keys in a serialized listing, is not modelled: orders are maps.
- The `Authorization` header is a single string. Repeated headers and case folding of the header name are the framework's business.
- Serialization of responses to JSON text is not modelled. The response is a structured value carrying the status, `success`, the message and the data.
