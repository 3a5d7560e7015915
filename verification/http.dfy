/**
 * The JSON envelope every handler answers with:
 * `{success, message?, data?, error?}` for the gate and the mutating
 * handlers and `{success, count, data}` for the two listings.
 */
module Http {

  import opened Optional
  import opened Json
  import opened Records

  const Ok: nat := 200
  const Created: nat := 201
  const BadRequest: nat := 400
  const Unauthorized: nat := 401
  const NotFound: nat := 404
  const InternalServerError: nat := 500

  /**
   * The `error.message` of the TypeError a template literal throws on an
   * object it cannot convert, as the V8 engine words it.
   */
  const ConversionError: string := "Cannot convert object to primitive value"

  /** Every message text the modelled handlers can send. */
  datatype Message =
    | AuthenticationRequired
    | InvalidToken
    | OrderDataIncomplete
    | UpdateDataIncomplete
    | ConfirmationDataIncomplete
    | OrderNotFound(rendered: string)   // the order id as the template literal prints it
    | OrderCreated
    | OrderUpdated
    | ConfirmationRecorded
    | InternalError

  /** The text sent in the `message` property. */
  function Text(m: Message): (r: string)
    ensures m.OrderNotFound? ==> |r| == |m.rendered| + 20 && r[6..|r| - 14] == m.rendered
    ensures m.OrderNotFound? ==> r[..6] == "Orden " && r[|r| - 14..] == " no encontrada"
  {
    match m
    case AuthenticationRequired => "Autenticación requerida"
    case InvalidToken => "Token inválido"
    case OrderDataIncomplete => "Datos incompletos. Se requieren avisoId, claseAviso y cliente"
    case UpdateDataIncomplete => "Datos incompletos. Se requieren ordenId y nuevoEstado"
    case ConfirmationDataIncomplete => "Datos incompletos. Se requieren ordenId y estado"
    case OrderNotFound(rendered) => "Orden " + rendered + " no encontrada"
    case OrderCreated => "Orden de trabajo creada exitosamente"
    case OrderUpdated => "Orden actualizada exitosamente"
    case ConfirmationRecorded => "Confirmación registrada"
    case InternalError => "Error interno del servidor"
  }

  /** A client can tell every outcome, and the missing order's id, from the message text alone. */
  lemma {:induction false} TextIsInjective(m1: Message, m2: Message)
    ensures Text(m1) == Text(m2) ==> m1 == m2
  {
    if Text(m1) == Text(m2) {
      var t := Text(m1);
      if m1.OrderNotFound? && m2.OrderNotFound? {
        assert m1.rendered == t[6..|t| - 14] == m2.rendered;
      } else if !m1.OrderNotFound? && !m2.OrderNotFound? {
        assert |t| == |Text(m2)| && t[0] == Text(m2)[0];
      }
    }
  }

  /** The `data` property (and `count` for the listings), or the `error` property of a 500. */
  datatype Payload =
    | NoData
    | OrderAck(ordenId: Value, estado: Value, timestamp: Value)
    | ConfirmationAck(confirmacionId: string, ordenId: Value, estado: Value)
    | OrderListing(count: nat, orders: seq<WorkOrder>)
    | ConfirmationListing(count: nat, confirmations: seq<Confirmation>)
    | ErrorDetail(error: string)

  datatype Response = Response(status: nat, success: bool, message: Option<Message>, data: Payload)

  /** `res.status(code).json({ success: false, message })`. */
  function Reject(status: nat, m: Message): Response
  {
    Response(status, false, Some(m), NoData)
  }

  /** The `catch` blocks: `500 { success: false, message, error: error.message }`. */
  const ServerError: Response := Response(InternalServerError, false, Some(InternalError), ErrorDetail(ConversionError))
}
