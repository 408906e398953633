/** Shared record and enumeration types of the stock client
    (the files under src/app/shared/models). */
module Models {

  datatype Option<T> = None | Some(value: T)

  /** A product or user id is `string | number` compared with `===`:
      the number 5 and the string "5" are different ids. Numbers are
      modelled as integers. */
  datatype Id = Num(n: int) | Str(s: string)

  /** Frontend roles, written in lower case ('admin' | 'manager' | 'user'). */
  datatype Role = AdminRole | ManagerRole | UserRole

  /** The lower-case spelling the frontend uses for a role. */
  function RoleName(r: Role): (name: string)
  {
    match r
    case AdminRole => "admin"
    case ManagerRole => "manager"
    case UserRole => "user"
  }

  datatype MovementType = Entrada | Salida | AjusteInicial | Correccion

  /** A movement record as the backend sends it. Dates stay ISO strings. */
  datatype StockMovement = StockMovement(
    id: int,
    productId: int,
    productName: string,
    movementType: MovementType,
    quantityChanged: int,
    stockBefore: int,
    stockAfter: int,
    movementDate: string,
    reason: Option<string>,
    username: Option<string>)

  /** A product; `price` is a JavaScript number, kept as a real that no
      operation of the model computes with. */
  datatype Product = Product(
    id: Id,
    name: string,
    description: Option<string>,
    price: real,
    stock: int,
    imageUrl: Option<string>)

  datatype User = User(
    id: Id,
    username: string,
    password: Option<string>,
    role: Role,
    name: Option<string>)

  /** JavaScript truthiness of an optional string: defined and not "". */
  predicate Truthy(s: Option<string>)
  {
    s.Some? && s.value != ""
  }

  /** Why a service call failed: a request refused before it was sent
      (`MissingId`), or an HTTP request that failed (`RequestFailed`). */
  datatype ServiceError = MissingId | RequestFailed

  /** What a service call's observable delivers: a value or an error. */
  datatype Result<T> = Ok(value: T) | Err(error: ServiceError)

  /** A router navigation: a path and an optional `returnUrl` query parameter. */
  datatype Navigation = Navigate(path: string, returnUrl: Option<string>)

  function ProductId(p: Product): Id { p.id }

  function UserId(u: User): Id { u.id }
}
