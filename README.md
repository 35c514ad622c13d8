# MilSabores storefront: a verified model of the page logic

MilSabores is a React storefront for a pastry shop. Almost all of it renders
pages or calls three back-end services (authentication, catalogue, orders).
This project models in Dafny the logic that sits inside the page handlers:

- the cart kept in the browser's `sessionStorage`: add to cart on the product
  page; quantity change, removal, coupon and payment on the cart page; the
  badge and logout in the header;
- prices: the priority-ordered discount of the product page, the subtotal,
  the FELICES50 coupon and `Math.round`;
- the form checks of the registration, login, settings and contact pages,
  run in their fixed order, where the first failure wins;
- the suffix-only e-mail regular expression
  `/(@duoc.cl|@profesor.duoc.cl|@gmail.com)$/`;
- benefit detection, login error classification and the role-based page
  after login;
- the region and comuna selects;
- the session record each page writes;
- the order history, sorted in place newest first, where a 404 means "no
  orders yet".

Layout, one module per file:

| file | module | source |
|---|---|---|
| common.dfy | `Common` | `Option`, the three ways an axios call ends (`Outcome`), and the JavaScript string operations the handlers use: `length` in UTF-16 units, `toUpperCase`, `toLowerCase`, `includes`, `endsWith`, `parseInt`, and truthiness |
| email_rule.dfy | `EmailRule` | the e-mail regular expression shared by three pages |
| session_data.dfy | `SessionData` | the stored user record; a stored record is absent, unparsable or present |
| geography.dfy | `Geography` | the region and comuna table that registration and settings both carry |
| cart.dfy | `Cart` | the pure list operations on the cart (`reduce`, `map`, `filter`, `find`, merge) |
| pricing.dfy | `Pricing` | discount percentage, unit price, totals, rounding |
| store.dfy | `Store` | class `SessionStore`, which holds the stored records; its methods are the handlers that write them |
| header.dfy | `Header` | badge, admin link, greeting |
| login.dfy, registro.dfy, ajustes.dfy, contacto.dfy, pedidos.dfy | `Login`, `Registro`, `Ajustes`, `Contacto`, `Pedidos` | one page each |

HTTP calls appear only as the way they end (`Outcome`). "No request is made"
is stated as "the result is the same for every response".

Stored data that is not what the pages expect is handled as the code
handles it:

- **Unreadable records.** Only the header catches a parse error
  (src/components/layout/Header.jsx:17-24); it then shows an empty badge and
  no user.
  - The product page's `obtenerCarro` throws inside the click handler. The
    model returns `CartUnreadable` and writes nothing.
  - The cart page parses its cart while rendering (src/pages/Carro.jsx:18).
    Its handlers therefore require a readable cart.
  - The settings, contact and order-history pages parse the user inside an
    effect. They require a readable user record.
  - The settings page re-reads the user after a successful update. An
    unreadable record there lands in the same `catch` as a failed update.
- **Corrupt data and login.** The product page checks only that some
  `usuarioActual` text is stored (src/pages/DetalleProducto.jsx:74). A
  corrupt record therefore lets the user add to the cart.

## Model

| member | source | states |
|---|---|---|
| Common.OrEmpty | src/pages/AjustesUsuario.jsx:52-59 | `x or ''` on a stored string: the value when it is non-empty, otherwise the empty string |
| Common.Utf16Length | src/pages/RegistroUsuario.jsx:68 | `length` counts UTF-16 units. It is at least the number of characters, equal to it when no character lies outside the Basic Multilingual Plane, and at most twice it |
| Common.ToUpper | src/pages/Carro.jsx:81 | `toUpperCase` keeps the length and maps every character through the upper-case table (a–z, dotless i, long s) |
| Common.ToLower | src/pages/IniciarSesion.jsx:71 | `toLowerCase` keeps the length and lower-cases every ASCII capital |
| Common.IncludesAt | src/pages/IniciarSesion.jsx:72 | an occurrence of `part` at any offset makes `includes` true |
| Common.IncludesWitness | src/pages/IniciarSesion.jsx:72 | conversely, when `includes` is true it names an offset where `part` occurs |
| Common.SkipSpaces | src/pages/RegistroUsuario.jsx:49 | `parseInt` skips a prefix of JavaScript white space, and what is left does not start with white space |
| Common.DigitRun | src/pages/RegistroUsuario.jsx:92-93 | the digit run `parseInt` reads is the longest prefix of digits |
| Common.DigitsValue | src/pages/RegistroUsuario.jsx:92-93 | a run of digits has a non-negative value |
| Common.ParseUnsigned | src/pages/RegistroUsuario.jsx:92-93 | the unsigned part of `parseInt` (decimal, or hexadecimal after `0x`) is never negative; no digit gives NaN |
| Common.ParseInt | src/pages/RegistroUsuario.jsx:92-93 | `parseInt` on a string: leading white space skipped, one optional sign, then the unsigned reading (base 16 after `0x`); NaN when no digit follows |
| Common.DecimalString | src/pages/RegistroUsuario.jsx:194 | the option value `String(n)` is a non-empty run of decimal digits with no leading zero |
| Common.DecimalStringValue | src/pages/RegistroUsuario.jsx:194 | the digits of `String(n)` have the value n |
| Common.DigitRunAll | src/pages/RegistroUsuario.jsx:49 | on a string made only of digits, the digit run is the whole string |
| Common.ParseUnsignedDecimal | src/pages/RegistroUsuario.jsx:49 | the unsigned reader reads `String(n)` back as n |
| Common.ParseIntDecimal | src/pages/RegistroUsuario.jsx:49 | `parseInt(String(n)) === n`: an option value reads back as the id written into it |
| EmailRule.ValidEmail | src/pages/RegistroUsuario.jsx:71-72 | the address ends in text matched by `@duoc.cl`, `@profesor.duoc.cl` or `@gmail.com`, with each unescaped dot matching any character but a line terminator |
| EmailRule.ValidEmailIsRegexTest | src/pages/RegistroUsuario.jsx:71-72 | checking the last 8, 17 or 10 characters against the three patterns decides exactly what the end-anchored regex test decides (a match starting at any offset), in both directions |
| EmailRule.LiteralSuffixAccepted | src/pages/RegistroUsuario.jsx:71-72 | every address that ends in @duoc.cl, @profesor.duoc.cl or @gmail.com passes |
| EmailRule.DotIsAnyCharacter | src/pages/RegistroUsuario.jsx:71 | the unescaped `.` accepts any character but a line terminator, e.g. `x@gmailXcom` |
| EmailRule.OnlyTheEndIsChecked | src/pages/IniciarSesion.jsx:25-26 | any text may precede a passing suffix, and the bare suffix `@gmail.com` passes |
| EmailRule.TrailingSpaceRejected | src/pages/Contacto.jsx:69-72 | a trailing space is not trimmed and makes the test fail |
| SessionData.ParsedUser | src/pages/Carro.jsx:25 | `JSON.parse` of the stored user gives a user exactly when one is stored |
| SessionData.LoggedInId | src/pages/Carro.jsx:25-26 | the id the payment guard accepts: present exactly when a user with a non-zero `idUsuario` is stored (`!idUsuario`) |
| Geography.FindRegion | src/pages/RegistroUsuario.jsx:49 | `find` returns a listed region whose id equals the parsed value, and returns nothing exactly when no id matches (NaN matches nothing) |
| Geography.ComunasFor | src/pages/RegistroUsuario.jsx:49-50 | the comunas of the first listed region whose id equals `parseInt(value)`, and none when no region matches or the value parses to NaN |
| Geography.SelectRegion | src/pages/RegistroUsuario.jsx:48-52 | choosing a region resets the comuna to '' and offers that region's comunas |
| Geography.KnownRegion | src/pages/RegistroUsuario.jsx:18-35 | the option for region k (1–4) offers that region's four comunas |
| Geography.FindListedRegion | src/pages/RegistroUsuario.jsx:18-35 | `find` with id k (1–4) stops at the k-th listed region |
| Geography.UnknownRegion | src/pages/RegistroUsuario.jsx:49-50 | a value that names no listed region, including the empty placeholder, offers no comunas |
| Geography.ComunasOnlyForListedIds | src/pages/RegistroUsuario.jsx:49-50 | comunas are offered only for values that parse to 1–4 |
| Cart.Subtotal | src/pages/Carro.jsx:45 | the sum of unit price times quantity over the cart's items, starting from 0 |
| Cart.ItemCount | src/components/layout/Header.jsx:19 | the sum of the items' quantities, starting from 0: the number of units on the badge |
| Cart.SumAppend | src/pages/Carro.jsx:45 | `reduce` over one more item adds that item's term |
| Cart.SumConcat | src/pages/Carro.jsx:45 | the sum over two carts joined is the sum of their sums |
| Cart.SumUpdate | src/pages/Carro.jsx:45 | replacing one item changes the sum by the difference of its terms |
| Cart.SumNonNegative | src/pages/Carro.jsx:45 | non-negative terms give a non-negative sum |
| Cart.SubtotalNonNegative | src/pages/Carro.jsx:45 | with quantities of at least 1 the subtotal is never negative |
| Cart.ChangeQuantity | src/pages/Carro.jsx:65-71 | same length; items with the id get `max(1, cantidad + change)`, the others are unchanged |
| Cart.ChangeQuantityKeepsShape | src/pages/Carro.jsx:66-68 | no change drives a quantity below 1; ids and their order stay, so unique ids stay unique |
| Cart.ChangeQuantityAbsent | src/pages/Carro.jsx:66-68 | an id not in the cart leaves the cart unchanged |
| Cart.ChangeQuantitySubtotal | src/pages/Carro.jsx:65-71 | the subtotal moves by the unit price times the change actually applied |
| Cart.Remove | src/pages/Carro.jsx:74 | `filter`: the items whose id differs from the removed one, in cart order; never longer than the cart |
| Cart.RemoveFilters | src/pages/Carro.jsx:74 | an item is kept exactly when it was in the cart and has another id |
| Cart.RemoveDropsId | src/pages/Carro.jsx:74 | no item with the removed id is left |
| Cart.RemoveUnique | src/pages/Carro.jsx:74 | with unique ids, removing an item's id cuts out exactly that item |
| Cart.RemoveConcat | src/pages/Carro.jsx:74 | `filter` distributes over concatenation, so the kept items stay in order |
| Cart.RemoveAbsent | src/pages/Carro.jsx:74 | removing an absent id leaves the cart as it was |
| Cart.RemoveIdempotent | src/pages/Carro.jsx:74 | removing twice is removing once |
| Cart.RemoveItemCount | src/pages/Carro.jsx:73-76 | removing an item with a unique id takes exactly its units off the badge count |
| Cart.RemoveKeepsInvariants | src/pages/Carro.jsx:74 | removal keeps ids unique and quantities positive |
| Cart.IndexOf | src/pages/DetalleProducto.jsx:87 | `find` stops at the first item with the id, and finds nothing exactly when the id is absent |
| Cart.AddItem | src/pages/DetalleProducto.jsx:87-98 | the first item with the product's id gets the added units and keeps its name and price; with no such item the new one is pushed at the end |
| Cart.AddExisting | src/pages/DetalleProducto.jsx:87-90 | adding a present id keeps the length and raises the first such item's quantity; its `precioFinal` and every other item stay the same |
| Cart.AddNew | src/pages/DetalleProducto.jsx:91-97 | adding a new id appends exactly that item at the end |
| Cart.AddItemCount | src/pages/DetalleProducto.jsx:85-99 | a merge or an append raises the unit count by exactly the amount added |
| Cart.AddItemKeepsInvariants | src/pages/DetalleProducto.jsx:85-99 | adding a positive amount keeps ids unique and quantities positive, and the id is then present |
| Cart.AddTwice | src/pages/DetalleProducto.jsx:85-99 | adding a new product twice, with a then b units, leaves one line with a + b units |
| Pricing.RoundDiv | src/pages/Carro.jsx:53 | `Math.round(n / d)`: the nearest integer, with halves rounded up |
| Pricing.RoundDivUnique | src/pages/Carro.jsx:53 | the rounding bounds admit only one integer |
| Pricing.DiscountPercent | src/pages/DetalleProducto.jsx:18-23 | 50 exactly when `descuentoCincuenta` is set; 10 exactly when it is not set and `descuentoFelices50` or `descuentoDuoc` is; otherwise 0 |
| Pricing.UnitPrice | src/pages/DetalleProducto.jsx:61-67 | the nearest peso to `precio × (1 − d/100)`, never above `precio`, and equal to it when d = 0 |
| Pricing.CouponActive | src/pages/Carro.jsx:48 | the stored coupon is exactly the text FELICES50: no other casing and no missing value counts |
| Pricing.ComputeTotals | src/pages/Carro.jsx:43-55 | the subtotal is the cart's subtotal. Without the stored coupon the total equals it. With the coupon the total is the rounded 90%. For a non-negative subtotal, 0 ≤ total ≤ subtotal |
| Pricing.TotalBounds | src/pages/Carro.jsx:46-53 | with quantities of at least 1, 0 ≤ total ≤ subtotal with or without the coupon |
| Pricing.CouponTakesATenth | src/pages/Carro.jsx:48-53 | on a subtotal divisible by 10 the coupon takes off exactly a tenth |
| Pricing.TwoUnitsExample | src/pages/Carro.jsx:45-53 | two units at 5000 give 10000; the coupon gives 9000; a stored "felices50" gives no discount |
| Store.ReadCart | src/pages/Carro.jsx:10 | a missing cart record reads as `[]`, a stored one as its items |
| Store.OfferedPrice | src/pages/DetalleProducto.jsx:61-67 | the unit price put in the cart is never above the list price, and is equal to it when no discount flag is set |
| Store.QuantityInput | src/pages/DetalleProducto.jsx:202 | `parseInt(value)`, falling back to 1: never 0. Unparsable text and 0 give 1; any other number, negative ones included, is kept |
| Store.TypedAmount | src/pages/DetalleProducto.jsx:202 | a positive amount typed in decimal is the amount used |
| Store.BuildOrder | src/pages/Carro.jsx:108-119 | one detail per cart item, in cart order, copying id, name, `precioFinal` and quantity; the total and user id are the ones given |
| Store.OrderLinesMatchSubtotal | src/pages/Carro.jsx:108-119 | the order's details add up to the cart's subtotal |
| Store.PaymentErrorMessage | src/pages/Carro.jsx:139-142 | `Error: <data>` when the error response has a non-empty body; the generic sentence otherwise |
| Store.SessionStore.AddToCart | src/pages/DetalleProducto.jsx:72-101 | checks, in order: no stored user, then an amount ≤ 0, then an unreadable cart; each leaves everything unchanged. Otherwise the cart becomes the merge or append, one cart event is recorded, the unit count rises by the amount, and a well-formed cart stays well formed |
| Store.SessionStore.ChangeItemQuantity | src/pages/Carro.jsx:65-71 | the stored cart becomes the clamped quantity change, one cart event is recorded, a well-formed cart stays well formed, and nothing else changes |
| Store.SessionStore.RemoveItem | src/pages/Carro.jsx:73-76 | the stored cart becomes the filtered cart, which has no item with the id; one cart event is recorded; well-formedness is kept |
| Store.SessionStore.SubmitCoupon | src/pages/Carro.jsx:79-91 | applied exactly when the upper-cased input is FELICES50; the stored coupon then becomes FELICES50, otherwise it is removed |
| Store.SessionStore.Pay | src/pages/Carro.jsx:94-148 | an empty cart is refused first, then a missing user id; neither sends anything or changes state. Otherwise the order from the cart and the current total is sent. Success removes the cart and the coupon; a failure leaves both and reports the message. A session event is recorded whenever an order was sent |
| Store.SessionStore.Logout | src/components/layout/Header.jsx:10-14 | the cart, user, coupon and discount flags are all cleared, and a session event is recorded |
| Store.SessionStore.SaveSession | src/pages/IniciarSesion.jsx:58-61 | the user record is stored, a session event is recorded, and nothing else changes |
| Header.UpdateState | src/components/layout/Header.jsx:16-25 | if either record fails to parse: count 0 and no user; otherwise the cart's unit count and the parsed user |
| Header.BadgeCount | src/components/layout/Header.jsx:18-19 | no stored cart shows 0; a cart with positive quantities never shows a negative count |
| Header.BadgeAfterAdd | src/components/layout/Header.jsx:18-19 | after an add, the badge grows by exactly the amount added |
| Header.ShowAdminPanel | src/components/layout/Header.jsx:38-39 | the admin link shows exactly for a user whose role is 'administrador' or 'vendedor', compared case-sensitively; no user means no link |
| Header.FirstWord | src/components/layout/Header.jsx:77 | `split(' ')[0]`: a prefix of the name with no space, followed by a space or the end |
| Header.Greeting | src/components/layout/Header.jsx:77 | a greeting exactly when the name is present, made of its first word |
| Header.FirstWordCases | src/components/layout/Header.jsx:77 | a name with no space is greeted in full; a leading space gives an empty greeting |
| Login.ValidateLogin | src/pages/IniciarSesion.jsx:24-33 | the e-mail check (suffix rule and at most 100 units) comes first, then a password of at least 6 units; each failure case as an if-and-only-if |
| Login.ClassifyFailure | src/pages/IniciarSesion.jsx:79-92 | 401 means wrong credentials, another status means a server problem, and no response means the server cannot be reached, each as an if-and-only-if |
| Login.RouteAfterLogin | src/pages/IniciarSesion.jsx:71-76 | '/admin' exactly when the lower-cased role contains 'admin' or 'vendedor' |
| Login.SessionFromLogin | src/pages/IniciarSesion.jsx:49-55 | the session holds the typed e-mail and the id, name, role and token from the response, and no other field |
| Login.SubmitLogin | src/pages/IniciarSesion.jsx:20-96 | local failure, or the session, greeting and page after success, or the classified failure |
| Login.InvalidFormSendsNothing | src/pages/IniciarSesion.jsx:24-33 | a form that fails a local check gets the same answer whatever the server would say |
| Login.PasswordBoundary | src/pages/IniciarSesion.jsx:30-33 | six characters pass; five do not |
| Login.PanelRolesGoToAdmin | src/pages/IniciarSesion.jsx:71-76 | every role that shows the header's admin link is sent to '/admin' |
| Login.AdminRouteWithoutPanel | src/pages/IniciarSesion.jsx:71-76 | the converse fails: the role 'ADMIN' reaches '/admin' without the header's admin link |
| Registro.Set | src/pages/RegistroUsuario.jsx:47 | `{ ...prev, [id]: value }`: the field takes the value, and every other field is unchanged |
| Registro.HandleChange | src/pages/RegistroUsuario.jsx:45-53 | the edited field takes the value. A new region also resets the comuna and replaces the comuna list. Nothing else changes |
| Registro.ValidateRegistration | src/pages/RegistroUsuario.jsx:64-74 | mismatch first, then a password shorter than 4 units, then the e-mail rule; each outcome as an if-and-only-if |
| Registro.PasswordLengthBoundary | src/pages/RegistroUsuario.jsx:68-70 | four characters pass; three do not |
| Registro.Benefits | src/pages/RegistroUsuario.jsx:76-80 | the Duoc benefit exactly for @duoc.cl or @profesor.duoc.cl; the age benefit exactly at 50 or more; the code exactly when upper-cased to FELICES50; always in that order |
| Registro.DuocBenefitImpliesValidEmail | src/pages/RegistroUsuario.jsx:71-78 | an address that earns the Duoc benefit always passes the e-mail check |
| Registro.CodeCasing | src/pages/RegistroUsuario.jsx:80 | any casing of the code works; a leading space does not |
| Registro.BuildPayload | src/pages/RegistroUsuario.jsx:86-95 | role always CLIENTE; region and comuna go through `parseInt`; the other fields are copied |
| Registro.FailureMessage | src/pages/RegistroUsuario.jsx:139-147 | the error response's text when non-empty; the generic sentence otherwise |
| Registro.SubmitRegistration | src/pages/RegistroUsuario.jsx:61-151 | a failed check, or a failed registration (its message), or a failed login (its message), or the session from the login answer with the greeting and benefits; registered exactly when the checks pass and both calls succeed |
| Registro.RejectedFormSendsNothing | src/pages/RegistroUsuario.jsx:64-74 | a form that fails a check gets the same answer whatever either service would say |
| Registro.FailedRegistrationSkipsLogin | src/pages/RegistroUsuario.jsx:97-105 | when registration fails the login answer plays no part |
| Ajustes.Set | src/pages/AjustesUsuario.jsx:74 | the field takes the value; every other field, the id and the disabled e-mail are unchanged |
| Ajustes.LoadSettings | src/pages/AjustesUsuario.jsx:39-69 | redirect exactly when no user is stored. Otherwise the form is filled from the session (missing fields as '') with empty passwords. The comunas are offered only for a stored region |
| Ajustes.HandleChange | src/pages/AjustesUsuario.jsx:72-81 | the edited field takes the value; a new region also resets the comuna and replaces the comuna list; the rest is unchanged |
| Ajustes.ValidateSettings | src/pages/AjustesUsuario.jsx:87-95 | the checks run only for a non-empty password: first it must match the confirmation, then have 4 to 10 units; each outcome as an if-and-only-if |
| Ajustes.PasswordWindow | src/pages/AjustesUsuario.jsx:88-95 | an empty password passes whatever the confirmation; 4 and 10 pass; 3 and 11 fail |
| Ajustes.BuildUpdateDto | src/pages/AjustesUsuario.jsx:102-114 | the password is in the update exactly when one was typed; ids go through `parseInt`; the rest is copied |
| Ajustes.MergeSession | src/pages/AjustesUsuario.jsx:120-125 | the stored session keeps every field and only the name is replaced; with nothing stored, only the name is set |
| Ajustes.MergeIdempotent | src/pages/AjustesUsuario.jsx:120-125 | merging the same name twice equals merging once |
| Ajustes.SubmitSettings | src/pages/AjustesUsuario.jsx:84-137 | a failed check is reported. The result is updated exactly when the checks pass, the call succeeds and the stored record parses; the session is then the merge. It fails otherwise |
| Ajustes.InvalidFormSendsNothing | src/pages/AjustesUsuario.jsx:87-95 | a form that fails a check gets the same answer whatever the server and storage hold |
| Ajustes.LoadThenSaveKeepsSession | src/pages/AjustesUsuario.jsx:39-126 | loading a session with a name and saving it unedited leaves the session exactly as it was |
| Contacto.Prefill | src/pages/Contacto.jsx:17-28 | a stored user's name and e-mail fill the form (missing ones as ''); a guest gets an empty form |
| Contacto.HandleChange | src/pages/Contacto.jsx:30-33 | only the edited field changes |
| Contacto.ValidateContact | src/pages/Contacto.jsx:66-74 | name over 100 units, then e-mail over 100, then the e-mail rule, then comment over 500; each outcome as an if-and-only-if |
| Contacto.CommentBoundary | src/pages/Contacto.jsx:74 | a comment of exactly 500 characters passes; 501 does not |
| Contacto.AfterSend | src/pages/Contacto.jsx:89-98 | the comment is always cleared; a logged-in user keeps name and e-mail, a guest's form is emptied |
| Contacto.AfterSendRestoresPrefill | src/pages/Contacto.jsx:89-98 | after a logged-in user sends, the form is again the prefilled one |
| Contacto.ProcessSend | src/pages/Contacto.jsx:64-101 | sent exactly when the checks pass, with the reset form; otherwise the first failed check |
| Contacto.HandleSubmit | src/pages/Contacto.jsx:35-62 | the login page exactly when a guest chooses it; otherwise the message is processed |
| Contacto.LoggedInIgnoresChoice | src/pages/Contacto.jsx:39-61 | a logged-in user is never asked |
| Pedidos.SortByIdDesc | src/pages/PedidosCliente.jsx:32 | in place: the array ends sorted by descending `idPedido` and holds the same orders (a permutation) |
| Pedidos.CargarDatos | src/pages/PedidosCliente.jsx:15-45 | redirect exactly when no user is stored. On success the orders are sorted newest first, form a permutation of the response, and carry no error. A 404 gives an empty list with no error. Any other failure keeps the previous list and sets the error message |
| Pedidos.SortedIdsUnique | src/pages/PedidosCliente.jsx:32-33 | two sorted arrangements of the same orders show the same order numbers at every position |

## Left out

- HTTP, dialogs and navigation. The axios calls, SweetAlert dialogs, `alert`,
  `navigate`, `window.location` and React state and effects are not modelled.
  A call is represented only by how it ends. A dialog or a redirect is a
  constructor of the result.
- `JSON.parse` and `JSON.stringify`. A stored record is absent, unparsable,
  or a parsed value. Field values of an unexpected JSON type are not
  modelled.
- The page's copy of the cart. The cart page keeps a React copy of the
  stored cart. The model assumes it equals what is stored.
- Extra product fields. `...producto` adds catalogue fields to a new cart
  item beyond id, name, unit price and quantity. Those extra fields are not
  modelled.
- Floating point. `Math.round` is applied to exact rationals. The model
  does not capture the binary rounding of `0.10` and `1 - d / 100`.
- `calcularEdad`. It reads the clock and `Date`, so "aged 50 or more" is an
  input of `Registro.Benefits`.
- The two-second `setTimeout` of the contact page. Sending is immediate.
- Case mapping. `toUpperCase` is modelled for a–z, dotless i and long s:
  the characters whose capital is an ASCII letter, which decide the
  comparisons with FELICES50. `toLowerCase` is modelled for ASCII only,
  which decides `includes('admin')` and `includes('vendedor')`. Other
  characters are left unchanged.
- `parseInt` on non-strings. It is modelled for strings only. Ids read back
  as numbers are `int`.
- Pedidos.SortByIdDesc: `Array.prototype.sort` is stable. The model proves
  sortedness and permutation, not stability. `Pedidos.SortedIdsUnique`
  shows that the order numbers shown do not depend on the algorithm.
- Pedidos.CargarDatos: the request's URL carries `user.idUsuario`, which is
  not modelled. A response body that is not an array, where `sort` would
  throw, is not modelled either.
- Events. The 'carroActualizado' and 'storageChange' notifications are
  recorded in order. Their listeners are the header (`Header.UpdateState`)
  and the cart page's recomputation (`Pricing.ComputeTotals`).
- Routing. The settings, contact, cart and order-history pages are not
  reachable from the route table, but their logic is modelled as written.
- SessionData.ParsedUser: defined for a readable user record only. Parsing
  an unreadable one throws in the page that reads it, and that crash is not
  modelled.
- Store.ReadCart: defined for a readable cart only. An unreadable cart makes
  `JSON.parse` throw, which each caller handles on its own.
- Store.SessionStore.ChangeItemQuantity: requires a readable cart. The cart
  page parses its cart while rendering (src/pages/Carro.jsx:18), so with an
  unreadable cart the page crashes before any button exists.
- Store.SessionStore.RemoveItem: requires a readable cart, for the same
  reason.
- Store.SessionStore.Pay: requires a readable cart and a readable user
  record. Both are parsed while the cart page renders
  (src/pages/Carro.jsx:18 and :25), so the page crashes first otherwise.
- Ajustes.LoadSettings: requires a readable user record. The settings page
  parses it inside its effect, which throws on an unreadable one.
- Contacto.Prefill: requires a readable user record, for the same reason on
  the contact page.
- Pedidos.CargarDatos: requires a readable user record, for the same reason
  on the order-history page.
- Header.BadgeAfterAdd: speaks of a readable user record only. With an
  unreadable one the header shows a count of 0 whatever the cart holds.
- Store.SessionStore.AddToCart: a `usuarioActual` holding the empty string
  counts as no user on the product page. The model has a single unreadable
  case for every non-JSON text, so there it counts as a stored user.
- Pages that only fetch and render, such as the catalogue, offers, blog,
  home and footer pages, and the route table, are not part of this model.
