# Stock client: caches, session, guard and display logic

This project models the browser client of a stock-management system (an
Angular application). The client talks to a backend that keeps the stock
ledger: products, their current stock, and the immutable stock movements
(ENTRADA, SALIDA, AJUSTE_INICIAL, CORRECCION).

The ledger rules belong to the backend, not to this client. The backend
keeps `stockAfter = stockBefore + quantityChanged`, keeps stock
non-negative, enforces a sign rule per movement type, and appends a
movement and updates the stock in one step. The client never computes or
checks any of these; it only fetches movements
(src/app/features/stock/services/stock-movement.service.ts:17-27). So the
model follows the client code and does not state them.

What the client does contain, and what is modelled here:

- **Product and user caches** (`Products`, `Users`, `IdLists`). These are
  the lists the screens observe. After each successful request the list is
  replaced: create appends the returned record; update overwrites the first
  record with the same id; delete filters out the id. Ids are
  `string | number` compared with `===`, so the model's `Id` keeps `Num(5)`
  and `Str("5")` apart.
- **User records** (`Users`). The backend uses upper-case roles and the
  frontend lower-case ones. The module models the role mapping, its round
  trip, and the request bodies for create and update, with the
  JavaScript truthiness rules of the update body.
- **Session** (`Auth`). The role priority mapping (ADMIN > MANAGER > USER),
  `isLoggedIn`, `hasRole` and the `userRole` getter. The service state
  changes in the constructor, `login` and `logout`, and an invariant ties
  the stored user to the current user.
- **Role guard** (`Guards`). It allows a route, or denies it and redirects.
  The router call becomes part of the returned decision.
- **Stock-management screen** (`StockScreen`). A state machine over
  `isEditing`, `currentProductId` and `showForm`. A write permission,
  computed once, gates every write action.
- **Movement history display** (`MovementHistory`). The CSS class per
  movement type, the signed quantity text, and the `productId` URL
  parameter.
- **Dashboard chart data** (`Dashboard`). Turns each backend `{type, count}`
  into a `{name, value}` entry with a capitalised name.

`Models` holds the shared records (`Product`, `User`, `StockMovement`,
`MovementType`, `Id`). `Text` holds ASCII case conversion and decimal
rendering of integers.

Server replies, browser storage, the clock and the confirmation dialog are
parameters of the operations. An HTTP failure is a `None` reply, except
for the two deletes (`Products.ProductService.DeleteProduct` and
`Users.UserService.DeleteUser`), which take a `succeeded` flag because the
server returns no body; a failure leaves the cached state unchanged.

## Model

| member | source | states |
|---|---|---|
| `IdLists.IndexOfId` | src/app/features/stock/services/product.service.ts:76 | `findIndex` on an id: the first index holding that id, or -1 exactly when no element has it |
| `IdLists.ReplaceFirst` | src/app/features/stock/services/product.service.ts:75-80 | overwriting the first match keeps the length, puts the returned record at the first index with its id, leaves every other index alone, and leaves the list unchanged when no id matches |
| `IdLists.Without` | src/app/features/stock/services/product.service.ts:91 | after `filter(p => p.id !== id)` no element has the id, every kept element came from the list, and every element with another id is kept |
| `IdLists.WithoutLength` | src/app/features/stock/services/product.service.ts:90-91 | exactly the elements carrying the id are removed: the length drops by their count and none remains |
| `IdLists.WithoutAppend` | src/app/features/stock/services/product.service.ts:91 | filtering distributes over concatenation, so kept elements keep their relative order |
| `IdLists.WithoutAbsent` | src/app/features/stock/services/product.service.ts:91 | deleting an id no cached element carries leaves the list as it was |
| `IdLists.WithoutIdempotent` | src/app/features/stock/services/product.service.ts:86-95 | deleting the same id twice gives the same cache as deleting it once |
| `Products.ProductService.constructor` | src/app/features/stock/services/product.service.ts:15-29 | the cache starts empty and holds the fetched list after a successful initial load |
| `Products.ProductService.RefreshProducts` | src/app/features/stock/services/product.service.ts:33-40 | a successful refresh replaces the whole cache with the fetched list; a failed one changes nothing |
| `Products.ProductService.AddProduct` | src/app/features/stock/services/product.service.ts:56-65 | a successful add leaves the old cache with the returned product appended at the end |
| `Products.ProductService.UpdateProduct` | src/app/features/stock/services/product.service.ts:67-84 | a missing id fails with no request and no change; otherwise the returned product replaces the first cached product with its id, and the cache is unchanged when none has it |
| `Products.ProductService.DeleteProduct` | src/app/features/stock/services/product.service.ts:86-95 | a confirmed delete filters out every product whose id is strictly equal to the argument |
| `Users.FrontendRole` | src/app/core/services/user.service.ts:42-54 | ADMIN maps to admin, MANAGER to manager, and any other string (USER included) to user |
| `Users.MapBackendUser` | src/app/core/services/user.service.ts:39-62 | id, username and name are copied, the role goes through the role mapping, and no password is produced |
| `Users.RoleRoundTrip` | src/app/core/services/user.service.ts:89 | upper-casing any frontend role and mapping it back gives the same role |
| `Users.UpperRoleIsBackendRole` | src/app/core/services/user.service.ts:89 | upper-casing admin, manager, user gives exactly ADMIN, MANAGER, USER, names of the backend's role enum |
| `Users.CreatePayload` | src/app/core/services/user.service.ts:86-91 | the create body sends the username, `password = passwordInput`, the chosen role upper-cased (a backend enum name that maps back to it), and the optional name |
| `Users.UpdatePayload` | src/app/core/services/user.service.ts:108-112 | username and password are sent exactly when non-empty, the role exactly when given, upper-cased to a backend enum name that maps back to it, and the name whenever defined, "" included |
| `Users.MapBackendUsers` | src/app/core/services/user.service.ts:66 | the list mapping keeps length and maps each element in place |
| `Users.UserService.constructor` | src/app/core/services/user.service.ts:30-37 | the user cache starts empty |
| `Users.UserService.GetUsers` | src/app/core/services/user.service.ts:64-70 | a successful fetch replaces the cache with the mapped users |
| `Users.UserService.CreateUser` | src/app/core/services/user.service.ts:80-100 | sends the create body; on success the mapped user is appended at the end |
| `Users.UserService.UpdateUser` | src/app/core/services/user.service.ts:102-126 | sends the update body; on success the mapped user replaces the first cached user with its id, or nothing changes if there is none |
| `Users.UserService.DeleteUser` | src/app/core/services/user.service.ts:128-136 | on success exactly the users whose id is strictly equal to `userId` are removed |
| `Auth.MapRolesFromBackend` | src/app/core/auth/auth.service.ts:63-72 | admin iff ADMIN is present; manager iff MANAGER is present without ADMIN; user otherwise, the empty list included |
| `Auth.MapRolesIgnoresOrder` | src/app/core/auth/auth.service.ts:68-71 | two backend lists with the same members map to the same role, whatever their order or repetitions |
| `Auth.IsLoggedIn` | src/app/core/auth/auth.service.ts:118-122 | logged in iff a token is stored, that token is not the empty string, and the authenticated flag is set |
| `Auth.CurrentRole` | src/app/core/auth/auth.service.ts:114-116 | `userRole` is the current user's role, and null exactly when there is no current user |
| `Auth.HasRole` | src/app/core/auth/auth.service.ts:124-133 | false when logged out or without a user; otherwise list membership for a list and equality for a single role |
| `Auth.HasRoleSingletonList` | src/app/core/auth/auth.service.ts:129-132 | a single role and the one-element list of it are the same demand |
| `Auth.HasRoleInConsistentSession` | src/app/core/auth/auth.service.ts:118-133 | in any session the service can reach, `hasRole(list)` is "logged in and the role is in the list" |
| `Auth.LoginUser` | src/app/core/auth/auth.service.ts:80-85 | the logged-in user takes the response id unless it is missing or 0 (then the clock), the username as name, and the mapped role |
| `Auth.AuthService.constructor` | src/app/core/auth/auth.service.ts:34-40 | the persisted user becomes current; the session is authenticated iff a persisted user and a non-empty token both exist |
| `Auth.AuthService.Login` | src/app/core/auth/auth.service.ts:74-100 | on success the token is stored, the stored and current user carry the mapped role and the username as name, the flag is set, and the session is logged in iff the token is non-empty; a failure changes nothing |
| `Auth.AuthService.Logout` | src/app/core/auth/auth.service.ts:102-108 | token and users are cleared, the flag is false, `isLoggedIn()` is false, and the user is sent to /login |
| `Auth.LoginEstablishesSession` | src/app/core/auth/auth.service.ts:77-88 | after login the session is logged in, and has exactly the mapped role, iff the returned token is not empty |
| `Auth.LoginReturnsStoredUser` | src/app/core/auth/auth.service.ts:80-96 | the user login returns equals the user it stored unless the response has no usable id and the two clock readings differ |
| `Guards.RoleGuard` | src/app/core/guards/role.guard.ts:6-31 | allows iff logged in and (no expected roles or `hasRole`); logged out redirects to /login with the URL as `returnUrl`; a logged-in denial redirects to /; an allow never navigates |
| `Guards.RouteAccess` | src/app/app.routes.ts:23-54 | with the route tables' role lists, stock is open to every logged-in user, history and dashboard to admins and managers, user management to admins |
| `Guards.EmptyRoleListDenies` | src/app/core/guards/role.guard.ts:20-28 | an empty expected-role list is not "no roles": a logged-in user is denied and sent to / |
| `StockScreen.WritePermission` | src/app/features/stock/stock-management/stock-management.component.ts:39 | write permission holds iff logged in with a user whose role is admin or manager |
| `StockScreen.StockManagementComponent.constructor` | src/app/features/stock/stock-management/stock-management.component.ts:33-50 | the permission is fixed at construction (a constant field) and the form starts closed |
| `StockScreen.StockManagementComponent.OpenNewProductForm` | src/app/features/stock/stock-management/stock-management.component.ts:62-71 | with permission: not editing, no current id, form shown; without: nothing changes |
| `StockScreen.StockManagementComponent.OpenEditProductForm` | src/app/features/stock/stock-management/stock-management.component.ts:74-83 | with permission: editing that product's id with the form shown; without: nothing changes |
| `StockScreen.StockManagementComponent.DeleteProduct` | src/app/features/stock/stock-management/stock-management.component.ts:85-92 | a delete request is issued iff the user may write and confirms; the screen state is untouched |
| `StockScreen.StockManagementComponent.OnDeleted` | src/app/features/stock/stock-management/stock-management.component.ts:95-100 | deleting the product being edited closes the form; deleting another changes nothing |
| `StockScreen.StockManagementComponent.OnSubmit` | src/app/features/stock/stock-management/stock-management.component.ts:106-142 | no call without permission or with an invalid form; otherwise update of the current id iff editing with an id, add otherwise; in every reachable state, update exactly when editing and add exactly when no id is held |
| `StockScreen.StockManagementComponent.OnSaved` | src/app/features/stock/stock-management/stock-management.component.ts:125-138 | a successful add or update closes the form |
| `StockScreen.StockManagementComponent.CancelAndCloseForm` | src/app/features/stock/stock-management/stock-management.component.ts:145-150 | resets to not editing, no current id, form hidden |
| `MovementHistory.MovementTypeClass` | src/app/features/stock/stock-movements-history/stock-movements-history.component.ts:73-86 | ENTRADA gets text-success, AJUSTE_INICIAL text-primary, SALIDA text-danger and CORRECCION text-warning, each class for its type only |
| `MovementHistory.MovementTypeClassDistinct` | src/app/features/stock/stock-movements-history/stock-movements-history.component.ts:74-82 | every type gets a non-empty class, and two types share a class only when they are the same type |
| `MovementHistory.QuantityDisplay` | src/app/features/stock/stock-movements-history/stock-movements-history.component.ts:88-93 | the text starts with '+' or '-' and has at least two characters; it starts with '-' exactly for a SALIDA or a negative CORRECCION |
| `MovementHistory.QuantityDisplayReadsBack` | src/app/features/stock/stock-movements-history/stock-movements-history.component.ts:89-92 | SALIDA shows minus its magnitude whatever its sign; CORRECCION shows its signed value; ENTRADA and AJUSTE_INICIAL show their value when non-negative and "+-n" when negative |
| `MovementHistory.ParseProductIdParam` | src/app/features/stock/stock-movements-history/stock-movements-history.component.ts:41-42 | no filter exactly when the parameter is absent or empty; a non-empty digit string filters by its decimal value (leading zeros allowed); any other non-empty string is left unevaluated |
| `MovementHistory.ProductIdParamRoundTrip` | src/app/features/stock/stock-movements-history/stock-movements-history.component.ts:42 | a product id written in decimal parses back to the same id, 0 included |
| `Dashboard.Capitalize` | src/app/features/dashboard/dashboard.service.ts:44 | the name has the type's length, its first character upper-cased and the rest lower-cased; "" gives "" |
| `Dashboard.CapitalizeIdempotent` | src/app/features/dashboard/dashboard.service.ts:44 | capitalising twice gives the same name as once |
| `Dashboard.CapitalizeEntrada` | src/app/features/dashboard/dashboard.service.ts:44 | ENTRADA becomes the label "Entrada" |
| `Dashboard.MovementTypeStats` | src/app/features/dashboard/dashboard.service.ts:43-46 | the chart has one entry per backend entry, each value equal to its count and each name as long as its type |
| `Dashboard.MovementTypeStatsNames` | src/app/features/dashboard/dashboard.service.ts:44 | entry i's name is the capitalised type of backend entry i |
| `Dashboard.MovementTypeStatsAppend` | src/app/features/dashboard/dashboard.service.ts:43 | the mapping distributes over concatenation, so the chart keeps the backend's order |

## Left out

- The stock ledger rules are not modelled. This client does not implement them; it only lists movements (src/app/features/stock/services/stock-movement.service.ts:17-27).
- HTTP and RxJS mechanics are not modelled: requests, `pipe`/`tap`/`catchError`, `forkJoin` and subject emission. Each cache operation takes the server's reply as a parameter and applies the resulting change at once.
- Interleaved asynchronous replies are not modelled. Other actions can run between a request and its reply; here a reply is applied in the same call, except on the stock screen, where it is a separate callback.
- Requests that only fetch and return a value are not modelled: `getProductById`, `getUserById`, `getProductStats`, `getMovementSummaryLastWeek`, `getDashboardData`, the `getProducts`/`products$` observables and the movement service. They have no state change or logic of their own.
- The `handleError` and `handleLoginError` message builders are not modelled. They format framework error objects.
- Aliasing is not modelled. `updateProduct` and `updateUser` write into the array the subject already emitted before they emit a copy, so an earlier subscriber's array also changes. The model keeps the cache as a value.
- Browser storage and JSON parsing are two optional fields. The stored user is taken as already parsed and well-formed.
- `Date.now()` is replaced by two parameters, one per call in `login`.
- Form machinery is not modelled: `reset`, `patchValue`, `markAllAsTouched`, `getRawValue`, the validators and the disabled controls. Form validity is a parameter of `OnSubmit`, and the `confirm` dialog's answer is a parameter of `DeleteProduct`.
- Console logging and warnings are not modelled.
- Product prices are JavaScript floating-point numbers; they are carried as `real` and never computed with. Ids, counts and quantities are modelled as unbounded integers; JavaScript holds them exactly only up to 2^53.
- The `default: ''` branch of `getMovementTypeClass` cannot be reached: the movement type is a closed datatype here, as it is in the source's type.
- The loading flags, error message and product-name lookup in `ngOnInit` of the history screen are subscription plumbing and are not modelled.
- `Users.UserService.UpdateUser` does not take `userId`. The source uses it only in the request URL, which is not modelled. The cache lookup uses the id the server returns, as in the source.
- `Text.NatToString` renders numbers in exact decimal. That matches JavaScript's `${n}` only up to 2^53 (`Number.MAX_SAFE_INTEGER`). Above that, a JavaScript number is a rounded double: it prints the shortest round-tripping digits padded with zeros (2^64 prints "18446744073709552000"), and from 10^21 it prints exponent form ("1e+21").
- `Text.ToUpper`, `Text.ToLower` and `Dashboard.Capitalize` convert ASCII letters only. JavaScript's Unicode case mapping can change other characters and even the length ('ß' upper-cases to "SS").
- `MovementHistory.ParseProductIdParam` evaluates `+param` only for plain decimal digit strings. Any other non-empty string becomes `Unparsed`, and its JavaScript number value is not computed: signs, spaces, fractions, exponents, hex, and NaN for garbage. A digit string whose value exceeds 2^53 is modelled by its exact value, whereas `+param` rounds it to the nearest double (`+"9007199254740993"` is 9007199254740992).
- The interceptor (src/app/core/interceptors/auth.interceptor.ts) is not modelled. It adds a header and logs out on a 401 reply.
- `authGuard` (src/app/core/guards/auth.guard.ts) is not modelled separately. It is `isLoggedIn()` plus a redirect, and `Auth.IsLoggedIn` covers it.
- The login, home, dashboard-view, app and user-management components are UI and are not modelled.
