/**
 * Entities of the point-of-sale and inventory ledger, and the shapes of the
 * HTTP responses the route handlers return.
 *
 * Every stored entity carries an `id` that equals its position in the store's
 * table (see Store.Valid); the database's string identifiers are not modelled.
 * Money is an integer number of minor currency units; timestamps are integers.
 */
module Domain {

  datatype Option<+T> = None | Some(value: T) {
    function GetOr(default: T): T {
      match this
      case Some(v) => v
      case None => default
    }
  }

  type Id = nat

  datatype Role = OWNER | ADMIN | STAFF | VIEWER

  /** The (organization, user, role) triple the session provider supplies. */
  datatype Session = Session(orgId: Id, userId: Id, role: Role)

  datatype PaymentMethod = CASH | CARD | TRANSFER | OTHER

  datatype MoveType = IN | OUT | ADJUST

  datatype AlertType = LOW_STOCK | CASH_RISK

  datatype AlertStatus = OPEN | CLOSED

  datatype Severity = MEDIA | HIGH

  /**
   * The text of an alert, kept as the data it is rendered from:
   * LowStockMessage renders as "Stock bajo: <name> (<stock>)", CashRiskMessage
   * as the 7-day forecasts derived from the two 30-day sums.
   */
  datatype AlertMessage =
    | LowStockMessage(productName: string, newStock: int)
    | CashRiskMessage(sales30: int, expenses30: int)
    | OtherMessage(text: string)

  /** The reason text of a movement; SaleRef(id) renders as "Venta <id>". */
  datatype Reason = NoReason | Note(text: string) | SaleRef(saleId: Id)

  datatype Organization = Organization(id: Id, name: string)

  datatype User = User(
    id: Id, orgId: Id, name: string, email: string,
    role: Role, isActive: bool, createdAt: int)

  datatype Product = Product(
    id: Id, orgId: Id, name: string, sku: Option<string>,
    salePrice: int, costPrice: int, stockCurrent: int, stockMin: int,
    isActive: bool, createdAt: int)

  datatype Sale = Sale(
    id: Id, orgId: Id, paymentMethod: PaymentMethod, total: int,
    createdBy: Id, dateTime: int)

  datatype SaleItem = SaleItem(
    saleId: Id, productId: Id, quantity: int, unitPrice: int, lineTotal: int)

  datatype Movement = Movement(
    orgId: Id, productId: Id, kind: MoveType, quantity: int,
    reason: Reason, createdBy: Id)

  datatype Alert = Alert(
    id: Id, orgId: Id, kind: AlertType, severity: Severity,
    message: AlertMessage, status: AlertStatus, createdAt: int)

  datatype Expense = Expense(
    id: Id, orgId: Id, categoryId: string, amount: int,
    description: Option<string>, date: int, createdBy: Id)

  /** Why a handler refused a request. */
  datatype Failure =
    | Unauthorized                         // no session
    | Forbidden                            // role not permitted
    | InvalidData                          // request failed schema validation
    | InvalidProduct                       // "Producto inválido"
    | InsufficientStock(productName: string)  // "Stock insuficiente: <name>"
    | ProductNotFound                      // "Producto no encontrado"
    | NegativeStock                        // "Stock negativo"
    | DuplicateEmail                       // "Ese email ya existe"
    | OwnerExists                          // "Ya existe un OWNER en esta organización"
    | StorageFault                         // an exception thrown by the database layer

  function StatusOf(f: Failure): int {
    match f
    case Unauthorized => 401
    case Forbidden => 403
    case ProductNotFound => 404
    case DuplicateEmail => 409
    case StorageFault => 500
    case _ => 400
  }

  datatype Response<+T> = Ok(status: int, body: T) | Err(failure: Failure) {
    function Status(): int {
      match this
      case Ok(s, _) => s
      case Err(f) => StatusOf(f)
    }
  }

  /** A number that the request schema coerces is an integer. */
  predicate IsInt(x: real) {
    x.Floor as real == x
  }
}
