# RenovatePro in Dafny

RenovatePro is a Next.js marketplace for renovation work. Clients order
services, and staff take those orders on: designers, workers and admins.
This project models the application's core in Dafny and proves properties
of that model:

- **Domain rules.** The order and payment status graphs, the price total,
  and the input validators.
- **Authentication and authorisation.** The JWT helpers, the cookie session,
  the API and page guards, and the role predicates.
- **Stored records.** The four Mongoose schemas (orders, users, services and
  portfolio items).
- **Route handlers.** The collection route handlers and the login and
  registration chains.
- **Portfolio server action.** `createPortfolioItem`, which no page calls.
- **Dashboard client logic.** The order table, the generic data table and
  the five forms.

Each source file is one Dafny module. The mapping follows these conventions:

- **Pure code** (lookups, validators, decision chains) is written as
  functions, with lemmas about them.
- **State the source mutates** is written as classes with `modifies`
  methods. This covers the cookie jar, a collection being inserted into, a
  user document's pre-save hook, and the dashboard components' state.
- **Signed tokens** are values `Token(payload, iat, exp, key)`. A signature
  is valid exactly when `key` is the configured secret. The JWT libraries'
  parsing and serialisation enter as the function parameters `decode` and
  `encode`.
- **Clocks, the secret's environment variable and database availability**
  (`storeUp`) are parameters.
- **A collection** is a sequence in the query's sort order. `skip`/`limit`
  is a slice of it (`Storage.Window`), and the text index is an abstract
  word-matching relation `matches`.
- **Passwords** are symbolic: `Plain(text)` or `Hashed(of)`, so a hash of a
  hash is a different value from a hash of the text.
- **Validation errors** are the set of failing paths. Each schema has a
  lemma saying that the set is empty exactly when every rule holds.

Shared modules: `Wrappers` (Option, Result), `Strings` (JavaScript
whitespace, `trim`, `split`, `startsWith`, ASCII case), `Types`, `Tokens`,
`Storage`, `Http` and `Schema` (Mongoose `required`/`trim`/ObjectId casts).

## Model

| member | source | states |
|---|---|---|
| OrderUtils.CalculateTotalAmount | src/lib/utils/order.ts:3-5 | the total of no services is 0 |
| OrderUtils.ReduceIsSum | src/lib/utils/order.ts:3-5 | the reduce from any start value adds the sum of the prices to it |
| OrderUtils.TotalIsSumOfPrices | src/lib/utils/order.ts:3-5 | the total equals the sum of the prices |
| OrderUtils.SumOfPricesAppend | src/lib/utils/order.ts:3-5 | appending a service adds exactly its price to the sum |
| OrderUtils.TotalAppend | src/lib/utils/order.ts:3-5 | appending a service adds exactly its price to the total |
| OrderUtils.OrderMovesTable | src/lib/utils/order.ts:7-20 | `canUpdateOrderStatus` allows a move iff it is one of the six pairs PENDING to CONFIRMED or CANCELLED, CONFIRMED to IN_PROGRESS or CANCELLED, IN_PROGRESS to COMPLETED or CANCELLED |
| OrderUtils.OrderPredecessor | src/lib/utils/order.ts:11-17 | COMPLETED is entered only from IN_PROGRESS, IN_PROGRESS only from CONFIRMED, CONFIRMED only from PENDING |
| OrderUtils.OrderTerminalStates | src/lib/utils/order.ts:15-16 | COMPLETED and CANCELLED have no successor |
| OrderUtils.NoOrderSelfTransition | src/lib/utils/order.ts:11-19 | no status may move to itself |
| OrderUtils.CancelFromEveryOpenStatus | src/lib/utils/order.ts:12-14 | CANCELLED is one step from a status iff it is PENDING, CONFIRMED or IN_PROGRESS |
| OrderUtils.PathRankIncreases | src/lib/utils/order.ts:12-16 | along any path of allowed moves the rank grows by at least one per step |
| OrderUtils.OrderGraphAcyclic | src/lib/utils/order.ts:12-16 | a path of one or more moves never returns to its start |
| OrderUtils.PathsIntoCompleted | src/lib/utils/order.ts:12-16 | every path ending at COMPLETED is a suffix of PENDING, CONFIRMED, IN_PROGRESS, COMPLETED |
| OrderUtils.OnlyPathToCompleted | src/lib/utils/order.ts:12-16 | the only path from PENDING to COMPLETED is PENDING, CONFIRMED, IN_PROGRESS, COMPLETED |
| OrderUtils.PaymentMovesTable | src/lib/utils/order.ts:22-34 | `canUpdatePaymentStatus` allows a move iff it is one of PENDING to PAID or FAILED, PAID to REFUNDED, FAILED to PENDING |
| OrderUtils.RefundedOnlyFromPaid | src/lib/utils/order.ts:27-30 | REFUNDED is terminal and reachable only from PAID |
| OrderUtils.PaymentRetryCycle | src/lib/utils/order.ts:27-29 | PENDING to FAILED and FAILED to PENDING are both allowed |
| OrderUtils.LoweredOrderStatusValues | src/lib/utils/order.ts:36-38 | lower-casing each order status value gives its lower-case name |
| OrderUtils.FormatOrderStatus | src/lib/utils/order.ts:36-38 | the statuses are shown as "pending", "confirmed", "in progress", "completed" and "cancelled"; no label contains "_" |
| OrderUtils.FormattedLabel | src/lib/utils/order.ts:36-38 | lower-casing each value and replacing its first "_" by a space gives its label, which has no "_" |
| OrderUtils.InProgressLabel | src/lib/utils/order.ts:36-38 | IN_PROGRESS is shown as "in progress" |
| OrderUtils.ReplaceInProgress | src/lib/utils/order.ts:37 | replacing the first "_" of "in_progress" gives "in progress", which has no "_" |
| OrderUtils.PlainLabel | src/lib/utils/order.ts:36-38 | a status without "_" is shown as its label, its value lower-cased |
| OrderUtils.FormatPlainOrderStatuses | src/lib/utils/order.ts:36-38 | a status without "_" is shown as its value lower-cased |
| OrderUtils.FormatPaymentStatus | src/lib/utils/order.ts:40-42 | the payment statuses are shown as "pending", "paid", "failed" and "refunded" |
| OrderUtils.OrderStatusColor | src/lib/utils/order.ts:44-54 | green marks exactly COMPLETED, red exactly CANCELLED, yellow exactly PENDING |
| OrderUtils.PaymentStatusColor | src/lib/utils/order.ts:56-65 | green marks exactly PAID, red exactly FAILED, gray exactly REFUNDED |
| OrderUtils.StatusColorsDistinct | src/lib/utils/order.ts:44-65 | each colour map gives distinct statuses distinct classes |
| Types.ParseRole | src/types/index.ts:5 | a role string parses iff it is one of the four role values, and parsing inverts naming |
| Types.RoleNameRoundTrip | src/lib/roleCheck.ts:3-8 | naming a role and parsing the name gives the role back |
| Types.IncludesRoleNameIff | src/lib/roleCheck.ts:15 | `includes` over a role list holds iff the string names a role in the list |
| Types.ParseOrderStatus | src/types/index.ts:70-76 | exactly the five upper-case values parse, each to the status of that name |
| Types.OrderStatusRoundTrip | src/types/index.ts:70-76 | naming an order status and parsing the name gives it back, so the five values are distinct |
| Types.ParsePaymentStatus | src/types/index.ts:78-83 | exactly the four payment values parse |
| Types.PaymentStatusRoundTrip | src/types/index.ts:78-83 | naming a payment status and parsing the name gives it back, so the four values are distinct |
| OrderValidation.ParseOrderInput | src/lib/validations/order.ts:4-9 | input is accepted iff services is non-empty, totalAmount > 0 and any status values are enum values; absent statuses default to PENDING; rejections name the failing fields |
| OrderValidation.InputRejectsEmptyOrFree | src/lib/validations/order.ts:5-6 | an empty services list or a non-positive totalAmount is rejected |
| OrderValidation.ParseOrderUpdate | src/lib/validations/order.ts:11-19 | every field optional; a present services list must be non-empty and a present totalAmount positive |
| OrderValidation.EmptyUpdateAccepted | src/lib/validations/order.ts:11-19 | an update with no fields is accepted unchanged |
| OrderValidation.PositiveOr | src/lib/validations/order.ts:25-26 | an absent number takes its default; a present one must be positive |
| OrderValidation.ParseOrderFilter | src/lib/validations/order.ts:21-27 | page and limit must be positive, defaulting to 1 and 10, and a present status must be an enum value |
| DisplayName.SpacedUnderscores | src/lib/utils.ts:10 | every "_" becomes a space, every other character is kept, and the length is unchanged |
| DisplayName.FormatDisplayName | src/lib/utils.ts:8-11 | the empty string formats to "" |
| DisplayName.CapitalizeWordsAt | src/lib/utils.ts:10 | a character is upper-cased iff it starts a word, and the length is kept |
| DisplayName.FormatDisplayNameAt | src/lib/utils.ts:10 | each output character is the upper-cased input at a word start, a space for "_", else unchanged |
| DisplayName.FormatDisplayNameShape | src/lib/utils.ts:10 | the output has the input's length and no "_" |
| DisplayName.FormatDisplayNameIdempotent | src/lib/utils.ts:10 | formatting twice equals formatting once |
| DisplayName.FormatInProgressName | src/lib/utils.ts:10 | "in_progress" formats to "In Progress" |
| RoleCheck.CheckRole | src/lib/roleCheck.ts:10-16 | false for no user or an empty role; otherwise true iff the role is in the allowed list, so an empty list refuses everyone |
| RoleCheck.IsAdmin | src/lib/roleCheck.ts:18-20 | holds only for admin |
| RoleCheck.IsDesigner | src/lib/roleCheck.ts:22-24 | holds exactly for designer or admin |
| RoleCheck.IsWorker | src/lib/roleCheck.ts:26-28 | holds exactly for worker or admin |
| RoleCheck.AdminAllPlainUserNone | src/lib/roleCheck.ts:18-28 | admin passes all three predicates; the plain user role passes none |
| UseRole.HasRole | src/hooks/useRole.ts:7-10 | false without a session; otherwise true iff the role is in the list |
| UseRole.IsAdmin | src/hooks/useRole.ts:12 | holds only for admin |
| UseRole.IsDesigner | src/hooks/useRole.ts:13 | holds exactly for designer or admin |
| UseRole.IsWorker | src/hooks/useRole.ts:14 | holds exactly for worker or admin |
| UseRole.IsUser | src/hooks/useRole.ts:15-16 | holds for every one of the four roles |
| UseRole.AgreesWithRoleCheck | src/hooks/useRole.ts:7-14 | the hook's predicates agree with the library's on the same user |
| Tokens.ConfiguredSecret | src/lib/auth.ts:5 | the secret is the environment's value when set and non-empty, else "your-secret-key" |
| Tokens.CheckToken | src/lib/auth.ts:21-31 | verification yields the payload iff the key is the secret and the token has not expired |
| Tokens.FreshTokenWindow | src/lib/auth.ts:13-31 | a token issued with a lifetime verifies exactly before issue time plus lifetime |
| Jwt.GenerateToken | src/lib/jwt.ts:6-10 | a generated token carries the payload, is issued now, expires 604800 s (7 days) later and is signed with the configured secret |
| Jwt.VerifyToken | src/lib/jwt.ts:12-18 | returns the payload iff decoding succeeds, the key matches and the token is unexpired; every failure is None (null), never an exception |
| Jwt.GeneratedTokenLifetime | src/lib/jwt.ts:4-9 | a generated token verifies exactly during its 7 days |
| Jwt.GetTokenFromHeader | src/lib/jwt.ts:20-26 | Some iff the header starts with "Bearer " (case-sensitive); the token is the field up to the next space |
| Jwt.BearerTokenShape | src/lib/jwt.ts:25 | a returned token never contains a space and is followed by a space or the end |
| Jwt.BearerExamples | src/lib/jwt.ts:20-26 | "Bearer abc" gives "abc", "Bearer a b" gives "a", "Bearer " gives "", lower-case "bearer" and absent or empty headers give null |
| SessionAuth.SignJWT | src/lib/auth.ts:13-19 | a session token carries the claims, expires 86400 s after issue and is signed with the configured secret |
| SessionAuth.VerifyJWT | src/lib/auth.ts:21-31 | returns claims iff the token decodes, is signed with the secret, is unexpired and carries an object payload |
| SessionAuth.GetSession | src/lib/auth.ts:33-38 | no "token" cookie gives no session; otherwise the session is the verification of that cookie |
| SessionAuth.SessionCookie | src/lib/auth.ts:40-49 | the cookie is httpOnly, sameSite lax, secure only in production, maxAge 86400, and holds the signed token |
| SessionAuth.CookieMatchesTokenLifetime | src/lib/auth.ts:40-49 | the cookie's maxAge equals the token's lifetime |
| SessionAuth.Values | src/lib/auth.ts:33-38 | the jar as the name-to-value map the request sees |
| SessionAuth.SessionRoundTrip | src/lib/auth.ts:33-49 | after setSession, getSession returns the stored claims until the token expires |
| SessionAuth.ClearedJarHasNoSession | src/lib/auth.ts:51-54 | after clearSession there is no session |
| SessionAuth.CookieStore.SetSession | src/lib/auth.ts:40-49 | the jar gains exactly the session cookie under "token" |
| SessionAuth.CookieStore.ClearSession | src/lib/auth.ts:51-54 | the jar loses exactly "token", and no session can be read afterwards |
| SessionAuth.RequireAuth | src/lib/auth.ts:56-68 | redirects to /login when the session is missing or unverifiable, else returns its claims |
| ApiAuth.HasRole | src/middleware/auth.ts:6-8 | holds iff the role names a role in the list |
| ApiAuth.HeaderToken | src/middleware/auth.ts:20 | no header or no space gives nothing; otherwise the second space-separated field |
| ApiAuth.WithAuth | src/middleware/auth.ts:10-48 | 401 "Authentication required" without a token; 401 "Invalid token" when verification fails; 403 "Insufficient permissions" for a role outside the list; else granted with the claims |
| ApiAuth.GrantedMeansVerified | src/middleware/auth.ts:20-39 | access is granted iff the token verifies to claims whose role is allowed |
| ApiAuth.WithAuthDefault | src/middleware/auth.ts:12-17 | the default allowed list is all four roles, so only unknown roles get 403 |
| ApiAuth.WithRoleCheck | src/middleware/auth.ts:50-57 | returns exactly what withAuth returns |
| ApiAuth.DefaultListRefusesOnlyUnknownRoles | src/middleware/auth.ts:12-17 | the default list admits exactly the four role values |
| ApiAuth.HeaderTokenAt | src/middleware/auth.ts:20 | the token is the text after the first space, up to the next one |
| ApiAuth.SchemeIgnored | src/middleware/auth.ts:20 | any scheme word is accepted in place of "Bearer" |
| PageGuard.RoleDecision | src/middleware.ts:47-76 | the role step either passes the request or redirects to /unauthorized |
| PageGuard.IsAuthPage | src/middleware.ts:11-13 | a path is an auth page iff some prefix of it is "/login" or "/register" |
| PageGuard.Middleware | src/middleware.ts:15-83 | auth pages: a verified token goes to /dashboard, otherwise pass; guarded pages: a missing or unverifiable token goes to /login with next = path; else the role table decides |
| PageGuard.RoleDecisionTable | src/middleware.ts:47-76 | the request passes iff the role is permitted for the path |
| PageGuard.RolePagesExclusive | src/middleware.ts:47-64 | admins are refused on /designer-dashboard and /worker-dashboard; designers are refused on /admin |
| PageGuard.DashboardOpenToAllRoles | src/middleware.ts:65-76 | /dashboard admits user, admin, designer and worker |
| PageGuard.Route | src/middleware.ts:85-94 | paths outside the matcher pass untouched; matched paths go through the middleware |
| PageGuard.GuardedPagesNeedLogin | src/middleware.ts:31-43 | a matched non-auth page without a verified token redirects to /login with next = path |
| Schema.TrimmedField | src/models/User.ts:16-20 | a trimmed field keeps presence and is the trimmed text |
| Schema.BlankFailsTrimmedRequired | src/models/Service.ts:14-18 | an all-whitespace value passes `required` before trimming and fails it after |
| OrderModel.ParseStatus | src/models/Order.ts:46-50 | exactly the four lower-case values parse |
| OrderModel.StatusRoundTrip | src/models/Order.ts:46-50 | naming a status and parsing the name gives the status back, so the four values are distinct |
| OrderModel.OrderErrors | src/models/Order.ts:24-77 | the failing paths are exactly those whose rule fails |
| OrderModel.OrderErrorsEmptyIff | src/models/Order.ts:24-77 | an order validates iff user and service cast to ids, workers cast, any status is an enum value, and the five required fields are present |
| OrderModel.CreateOrder | src/models/Order.ts:24-77 | saving fails with exactly the failing paths, or stores the fields with status defaulting to pending, workers to [] and both timestamps set |
| OrderModel.CreatedOrderWellFormed | src/models/Order.ts:26-76 | a stored order has non-empty user, service and required text, and a status that parses back to itself |
| OrderModel.TextHitFields | src/models/Order.ts:81-85 | the text search matches iff description, address or clientName matches |
| UserModel.NormalizeEmail | src/models/User.ts:21-28 | the stored email is the trimmed input with each character lower-cased, so it has the trimmed length, no whitespace at either end and no upper-case ASCII letter |
| UserModel.NormalizeEmailIdempotent | src/models/User.ts:21-28 | normalising a stored email again leaves it unchanged |
| UserModel.EmailShapedIff | src/models/User.ts:21-28 | the computed email test agrees with the pattern non-space, "@", non-space, ".", non-space |
| UserModel.Prepare | src/models/User.ts:14-45 | name trimmed, email trimmed and lower-cased, role defaulting to "user" |
| UserModel.UserErrors | src/models/User.ts:14-45 | the failing paths are exactly those whose rule fails |
| UserModel.UserErrorsEmptyIff | src/models/User.ts:14-45 | a user validates iff name and email are present, the email matches, the password has 6 or more characters and the role is one of four |
| UserModel.HookedPassword | src/models/User.ts:47-55 | a modified password is replaced by its hash; an unmodified one is kept |
| UserModel.CreateUser | src/models/User.ts:14-55 | saving fails with exactly the failing paths, or stores the prepared fields with the password hashed once |
| UserModel.ComparePassword | src/models/User.ts:57-61 | only a single hash of a plain text matches, and it matches exactly that text |
| UserModel.SingleHashLogin | src/models/User.ts:47-61 | a user saved from a plain password matches exactly that password at login |
| UserModel.UserDocument.PreSave | src/models/User.ts:47-55 | the hook rewrites only the password, by HookedPassword |
| UserModel.SaveNewUser | src/models/User.ts:14-55 | constructing a document and running the hook gives CreateUser's result |
| ServiceModel.ServiceErrors | src/models/Service.ts:12-37 | the failing paths are exactly those whose rule fails |
| ServiceModel.ServiceErrorsEmptyIff | src/models/Service.ts:12-37 | a service validates iff trimmed name and category, description and price are present and price >= 0 |
| ServiceModel.CreateService | src/models/Service.ts:12-37 | saving fails with exactly the failing paths, or stores the trimmed fields with timestamps |
| PortfolioModel.PortfolioErrors | src/models/PortfolioItem.ts:13-42 | the failing paths are exactly those whose rule fails |
| PortfolioModel.PortfolioErrorsEmptyIff | src/models/PortfolioItem.ts:13-42 | an item validates iff it has a creator id, trimmed title and category, description and imageUrl |
| PortfolioModel.CreatePortfolioItem | src/models/PortfolioItem.ts:13-42 | saving without a creator always fails on `user`; a valid item is stored with timestamps |
| Storage.Collection.Insert | src/app/api/orders/route.ts:117 | a save appends exactly the new record |
| Storage.Filter | src/app/api/orders/route.ts:50 | `find` keeps only matching records of the collection, keeps every matching record, and never returns more than it was given |
| Storage.FilterMember | src/app/api/orders/route.ts:50 | every record `find` returns is in the collection and passes the filter |
| Storage.FilterAgree | src/app/api/orders/route.ts:50 | two filters that agree on every record select the same sequence |
| Storage.FilterThenFilter | src/app/api/orders/route.ts:42-50 | filtering twice equals filtering by the conjunction |
| Storage.FindIndex | src/app/api/auth/login/route.ts:20 | `findOne` finds the first matching position, or none iff nothing matches |
| Storage.FindFirst | src/app/api/auth/login/route.ts:20 | `findOne` returns the first matching record, or none iff nothing matches |
| Storage.FindAppended | src/app/api/auth/register/route.ts:18-38 | when nothing stored matches, a lookup after appending a matching record finds exactly that record |
| Storage.Window | src/app/api/orders/route.ts:55-57 | `skip`/`limit` yields at most limit records, each at position skip + i |
| Storage.PageCount | src/app/api/orders/route.ts:63 | ceil(total/limit): the fewest pages of `limit` that hold `total` |
| Storage.RecordOnItsPage | src/app/api/orders/route.ts:55-65 | record i appears on page i/limit + 1, which is within the page count |
| OrdersApi.BuildOrderQuery | src/app/api/orders/route.ts:25-48 | the query built step by step selects exactly the visible orders matching the optional status and search |
| OrdersApi.SortDirection | src/app/api/orders/route.ts:22-55 | the direction is -1 or 1, and descending iff sortOrder is absent, empty or "desc" |
| OrdersApi.ListOrders | src/app/api/orders/route.ts:7-73 | 401 without a session, 500 when the store fails, else page `page` of the wanted orders with ceil(total/limit) pages |
| OrdersApi.ListingNeverWidens | src/app/api/orders/route.ts:27-44 | every listed order is visible to the session; status and search only narrow the role filter |
| OrdersApi.OrderDraftOf | src/app/api/orders/route.ts:102-115 | the new document's owner is the session, designer "" is dropped, body status and workers are ignored |
| OrdersApi.CreateOrderReply | src/app/api/orders/route.ts:75-126 | 401 without a session, 400 for a falsy required field (so budget 0), 500 on save failure, else 201 with the stored order |
| OrdersApi.CreatedOrderOwnedAndPending | src/app/api/orders/route.ts:102-115 | a created order belongs to the session, is pending with no workers, whatever the body said |
| OrdersApi.RequiredFieldsSuffice | src/app/api/orders/route.ts:88-117 | with the store up, a body with all fields and a valid service id is created |
| OrdersApi.PostOrder | src/app/api/orders/route.ts:75-126 | the collection grows by the created order exactly when the reply is 201 |
| ServicesApi.ListServices | src/app/api/services/route.ts:7-46 | no session needed; 500 when the store fails, else the page of services matching the exact category and search |
| ServicesApi.CreateServiceReply | src/app/api/services/route.ts:48-80 | 403 unless admin or designer, 400 for a falsy field (so price 0), 500 on save failure, else 201 with the stored body |
| ServicesApi.ZeroPriceRefused | src/app/api/services/route.ts:63-68 | for an admin or designer, a body with price 0 is refused with 400 "Missing required fields" |
| ServicesApi.ZeroPriceSchemaValid | src/models/Service.ts:23-27 | the schema accepts price 0 when the other fields are present |
| ServicesApi.BlankNameIsServerError | src/app/api/services/route.ts:63-79 | an all-whitespace name passes the check and fails the trimmed schema, giving 500 |
| ServicesApi.PostService | src/app/api/services/route.ts:48-80 | the collection grows by the created service exactly when the reply is 201 |
| PortfolioApi.DraftOf | src/app/api/portfolio/route.ts:31-34 | the item's user is the session's id |
| PortfolioApi.CreateItemReply | src/app/api/portfolio/route.ts:7-45 | 403 unless admin, designer or worker, 400 for a missing field, 500 on save failure, else 201 owned by the session |
| PortfolioApi.OwnerFromSession | src/app/api/portfolio/route.ts:31-34 | a forged `user` in the body is overwritten by the session id |
| PortfolioApi.ListItems | src/app/api/portfolio/route.ts:47-75 | 403 without a session, 500 on store failure; admins list the whole collection, anyone else exactly the stored items whose user is theirs, in store order |
| PortfolioApi.PostItem | src/app/api/portfolio/route.ts:7-45 | the collection grows by the created item exactly when the reply is 201 |
| UsersApi.WithoutPassword | src/app/api/users/route.ts:36 | the public user has every field except the password |
| UsersApi.Publish | src/app/api/users/route.ts:36 | listed users are the records without passwords, in order |
| UsersApi.ListUsers | src/app/api/users/route.ts:7-55 | 403 unless admin, 500 on store failure, else the page of users matching the exact role and search |
| UsersApi.UsersByRole | src/app/api/users/by-role/route.ts:7-41 | 403 unless admin or designer, 400 for a missing or unknown role, 500 on store failure, else the users of that role in store order, each as id, name and email |
| LoginApi.FindByEmail | src/app/api/auth/login/route.ts:20 | the first user whose stored email equals the normalised query; none for an absent email |
| LoginApi.Login | src/app/api/auth/login/route.ts:7-53 | 400 for a missing email or password, 500 on store failure, 401 "Invalid email or password" for an unknown email or a wrong password, else 200; the model's `data` is the claims `setSession` signs into the cookie, not the reply body `{message: "Login successful"}` |
| LoginApi.FailuresIndistinguishable | src/app/api/auth/login/route.ts:22-36 | an unknown email and a wrong password give the identical reply |
| LoginApi.SessionIsStoredUser | src/app/api/auth/login/route.ts:38-45 | the session payload is {id, name, email, role} of the matched user |
| LoginApi.StoredEmailIsFound | src/app/api/auth/login/route.ts:20-24 | logging in with a stored user's email, as stored, finds a user with that email |
| LoginApi.LoginAfterAppend | src/app/api/auth/login/route.ts:20-45 | right after a user with a new email is stored, logging in with that email succeeds iff the password matches that user |
| LoginApi.LoginRoute | src/app/api/auth/login/route.ts:7-53 | the session cookie is set on success and the jar is untouched on every failure |
| RegisterApi.Register | src/app/api/auth/register/route.ts:5-46 | 400 for a falsy field, 500 on store failure, 409 for a taken email, 500 when the schema refuses, else 201; the model's `data` is the stored user record, while the reply body is only a message |
| RegisterApi.SchemaRejectionsAreServerErrors | src/app/api/auth/register/route.ts:26-45 | a role outside the enum, or another schema failure, gives 500 |
| RegisterApi.RegisterThenLogin | src/app/api/auth/register/route.ts:26-38 | a user registered here can log in with the same password |
| RegisterApi.RegisterRoute | src/app/api/auth/register/route.ts:5-46 | the accounts grow by the new user exactly when the reply is 201 |
| LegacyRegisterApi.RegisterAsWritten | src/app/api/register/route.ts:7-52 | a taken email gives 400 "User already exists"; success iff the store is up, the email is new and the draft, with the client-side hash, validates; then 201. The model's `data` is the stored record; the reply body shows only its id, name, email and role with a message |
| LegacyRegisterApi.StoredHashIsDoubled | src/app/api/register/route.ts:21-29 | the stored password is hash(hash(pw)) |
| LegacyRegisterApi.RegisteredUserCannotLogIn | src/app/api/register/route.ts:21-29 | the registered password never matches at login |
| LegacyRegisterApi.MinLengthNeverApplies | src/app/api/register/route.ts:21-29 | the 6-character minimum sees the 60-character hash, so any password passes |
| LegacyRegisterApi.HashPassesLength | src/models/User.ts:29-33 | a hashed password always satisfies the 6-character minimum |
| LegacyRegisterApi.RegisterFixed | src/app/api/register/route.ts:21-29 | with the pre-hash removed, the stored password is hashed once and has 6 or more characters |
| LegacyRegisterApi.FixedRegisterThenLogin | src/app/api/register/route.ts:21-29 | with the pre-hash removed, the registered password logs in |
| MeApi.Me | src/app/api/auth/me/route.ts:6-42 | 401 "Unauthorized" without a bearer field, 401 "Invalid token" when verification fails, 500 on store failure, 404 for an unknown id, else exactly {id, name, email, role} of that user |
| MeApi.DeletedUserNotFound | src/app/api/auth/me/route.ts:20-25 | a valid token for an id no longer stored gives 404 |
| PortfolioActions.DraftAsWritten | src/actions/portfolioActions.ts:26 | the item is built from the data alone, with no creator |
| PortfolioActions.CreateItemAsWritten | src/actions/portfolioActions.ts:15-35 | non-admins get "Unauthorized"; otherwise failure on any save error, else success |
| PortfolioActions.AsWrittenAlwaysFails | src/actions/portfolioActions.ts:15-35 | no call ever succeeds, since the item never has a creator |
| PortfolioActions.DraftFixed | src/actions/portfolioActions.ts:26 | with the session's id stamped, the item has its creator |
| PortfolioActions.CreateItemFixed | src/actions/portfolioActions.ts:15-35 | the corrected action keeps the admin gate and error shape |
| PortfolioActions.FixedSucceedsForAdmins | src/actions/portfolioActions.ts:15-35 | with the creator stamped, an admin's valid item is saved |
| OrdersTable.IsOrderEditable | src/app/dashboard/components/OrdersTable.tsx:194-207 | false without a session; admin, assigned designer or assigned worker always; otherwise only the owner, only while "pending" |
| OrdersTable.OwnerEditsOnlyPending | src/app/dashboard/components/OrdersTable.tsx:204-206 | an owner without a staff role is locked out once the status leaves Pending |
| OrdersTable.StrangersNeverEdit | src/app/dashboard/components/OrdersTable.tsx:194-207 | a signed-in viewer who neither owns nor staffs the order and is not admin cannot edit |
| OrdersTable.CanCreate | src/app/dashboard/components/OrdersTable.tsx:47-48 | the Create button shows only for admin or user |
| OrdersTable.TakeProjectRequest | src/app/dashboard/components/OrdersTable.tsx:97-108 | a non-designer is refused before any request; a designer sends one PUT to the order with body {designer: session.id} |
| OrdersTable.ShownTakeIsSent | src/app/dashboard/components/OrdersTable.tsx:97-108 | a Take button the table shows always leads to that request |
| OrdersTable.TakeOnlyForDesigners | src/app/dashboard/components/OrdersTable.tsx:255 | Take appears only for designers and only on rows without a designer |
| OrdersTable.StatusFilterValue | src/app/dashboard/components/OrdersTable.tsx:225-227 | "all" becomes ""; any other choice is kept |
| OrdersTable.StatusParam | src/app/dashboard/components/OrdersTable.tsx:61 | the status parameter is sent iff the filter is non-empty |
| OrdersTable.AllStatusesMeansNoFilter | src/app/dashboard/components/OrdersTable.tsx:225-227 | choosing "all" lists exactly what a request without status lists |
| OrdersTable.ChosenStatusFilters | src/app/dashboard/components/OrdersTable.tsx:225-227 | choosing a status lists only visible orders with that status |
| OrdersTable.ShownTotalPages | src/app/dashboard/components/OrdersTable.tsx:67 | a reported page count of 0 or none is shown as 1 |
| OrdersTable.TableState.HandleCreate | src/app/dashboard/components/OrdersTable.tsx:87-90 | opens the form with no order selected |
| OrdersTable.TableState.HandleEdit | src/app/dashboard/components/OrdersTable.tsx:92-95 | opens the form on the row |
| OrdersTable.TableState.SelectStatus | src/app/dashboard/components/OrdersTable.tsx:225-227 | stores the mapped filter and nothing else |
| OrdersTable.TableState.Loaded | src/app/dashboard/components/OrdersTable.tsx:65-67 | stores the fetched rows and a page count of at least 1 |
| DataTable.CurrentPage | src/components/ui/DataTable.tsx:61-63 | the parent's page in server mode, the table's own otherwise |
| DataTable.TotalPages | src/components/ui/DataTable.tsx:68-70 | the parent's count in server mode, otherwise ceil(rows/10), the fewest pages of ten holding every row |
| DataTable.CurrentItems | src/components/ui/DataTable.tsx:72-74 | server mode shows data unsliced; client mode shows at most 10 rows, the i-th being row (p-1)*10+i |
| DataTable.ClientPagesCoverData | src/components/ui/DataTable.tsx:68-74 | in client mode every row appears on some page within the page count |
| DataTable.HandleSort | src/components/ui/DataTable.tsx:78-85 | no-op without sortConfig or setter; the same key while asc becomes desc; anything else becomes asc on the clicked key |
| DataTable.SortClicksAlternate | src/components/ui/DataTable.tsx:78-85 | repeated clicks on one header alternate asc and desc |
| DataTable.IsOwner | src/components/ui/DataTable.tsx:123-125 | with a session: the user field is the session's id, bare or populated; without one: any row whose user has no `_id` |
| DataTable.CanEdit | src/components/ui/DataTable.tsx:129 | iff onEdit is given and isEditable is absent or holds |
| DataTable.CanDelete | src/components/ui/DataTable.tsx:130-131 | iff onDelete is given and the viewer is admin, the owner, or the row has no user |
| DataTable.AnonymousViewerMayDeleteBareRows | src/components/ui/DataTable.tsx:123-131 | with no session, a row whose user is a bare id still offers Delete |
| DataTable.CanTake | src/components/ui/DataTable.tsx:132-133 | iff onTakeProject is given, the role is designer and no designer is assigned |
| DataTable.ControlsStayInRange | src/components/ui/DataTable.tsx:231-248 | controls show only when there are two or more pages; enabled buttons keep the page between 1 and the page count |
| DataTable.Pager.Previous | src/components/ui/DataTable.tsx:237-240 | moves back one page unless at page 1 or the controls are hidden; the page stays at least 1 |
| DataTable.Pager.Next | src/components/ui/DataTable.tsx:245-248 | moves forward one page unless at or past the last page; the page never passes the count |
| DataTable.Pager.Shown | src/components/ui/DataTable.tsx:72-74 | in client mode the pager's page shows at most 10 rows |
| OrderForm.PhoneShapedIff | src/app/dashboard/components/OrderForm.tsx:60-62 | the computed test agrees with the pattern: optional "+" then 10 to 15 digits, whitespace or "-" |
| OrderForm.ContentErrors | src/app/dashboard/components/OrderForm.tsx:45-70 | the flagged fields are exactly those whose rule fails |
| OrderForm.ContentErrorsEmptyIff | src/app/dashboard/components/OrderForm.tsx:45-66 | valid iff service is non-empty, description has 10 to 500 chars, budget >= 100, clientName has 2 to 50 letters, whitespace, "'" or "-", the phone matches, and the address has 10 to 100 chars |
| OrderForm.Errors | src/app/dashboard/components/OrderForm.tsx:45-70 | the whole form is valid iff its six content fields are; status, designer and workers carry no rule |
| OrderForm.Without | src/app/dashboard/components/OrderForm.tsx:181 | removes every copy of the id and keeps every other worker, in order: it is the filter for "not this id" |
| OrderForm.ToggleWorker | src/app/dashboard/components/OrderForm.tsx:178-184 | a selected worker is removed everywhere; an unselected one is appended at the end |
| OrderForm.WithoutAppended | src/app/dashboard/components/OrderForm.tsx:178-184 | removing a just-appended new id restores the list |
| OrderForm.ToggleTwice | src/app/dashboard/components/OrderForm.tsx:178-184 | toggling an unselected worker twice restores the list |
| OrderForm.ToggleTwiceSelected | src/app/dashboard/components/OrderForm.tsx:178-184 | toggling a selected worker twice keeps the same members, with that worker moved to the end |
| OrderForm.OrElse | src/app/dashboard/components/OrderForm.tsx:161-170 | `x \|\| fallback`: absent and "" fall back |
| OrderForm.ContentOf | src/app/dashboard/components/OrderForm.tsx:161-167 | each content field comes from the order, falling back to "" or 0 |
| OrderForm.ResetValues | src/app/dashboard/components/OrderForm.tsx:158-176 | editing loads the order (status falling back to "pending"); creating loads the defaults |
| OrderForm.ResetStatusNeverBlank | src/app/dashboard/components/OrderForm.tsx:168 | a reset never leaves the status empty |
| OrderForm.WorkersEditorAudience | src/app/dashboard/components/OrderForm.tsx:348-423 | the workers editor shows iff the viewer is admin, or a designer assigned to the edited order, and only inside the staff section |
| OrderForm.DesignerChoice | src/app/dashboard/components/OrderForm.tsx:397-399 | "none" becomes ""; any other pick is kept |
| OrderForm.IsAssignedDesigner | src/app/dashboard/components/OrderForm.tsx:115-118 | with a session, iff the edited order's designer is the viewer; with none, iff there is no order or it has no designer |
| OrderForm.DesignerLocked | src/app/dashboard/components/OrderForm.tsx:401 | never locked for admins or when creating; for a designer editing an order, locked iff it already has a designer |
| OrderForm.DesignerLockAudience | src/app/dashboard/components/OrderForm.tsx:401 | for a designer, the select is locked exactly when the order already has a designer, and never when creating |
| OrderForm.Trimmed | src/app/dashboard/components/OrderForm.tsx:191-197 | clientPhone, address, clientName and description are trimmed; the rest unchanged |
| OrderForm.Target | src/app/dashboard/components/OrderForm.tsx:187-188 | PUT /api/orders/{id} when editing, POST /api/orders when creating |
| OrderForm.SubmitRequest | src/app/dashboard/components/OrderForm.tsx:186-203 | the request carries the values with the four text fields trimmed, to the edit or create target, and no user |
| OrderForm.SubmittedTextAlreadyTrimmed | src/app/dashboard/components/OrderForm.tsx:191-197 | trimming the submitted text again changes nothing |
| OrderForm.ValidFormHasRequiredFields | src/app/dashboard/components/OrderForm.tsx:45-66 | a valid form whose text is not blank passes the create handler's required-field check |
| OrderForm.BlankDescriptionRefusedByServer | src/app/dashboard/components/OrderForm.tsx:47-50 | a description of 10 or more spaces passes the form but the create handler answers 400 |
| OrderForm.FormState.Reset | src/app/dashboard/components/OrderForm.tsx:158-176 | the form holds the reset values |
| OrderForm.FormState.ClickWorker | src/app/dashboard/components/OrderForm.tsx:178-184 | only workers changes, by the toggle |
| OrderForm.FormState.PickDesigner | src/app/dashboard/components/OrderForm.tsx:396-401 | a locked select changes nothing; otherwise the designer is set with "none" as "" |
| UserOrderEditForm.SameContentRules | src/app/dashboard/components/UserOrderEditForm.tsx:28-50 | the owner form accepts exactly what the full form accepts for the six content fields |
| UserOrderEditForm.ResetContent | src/app/dashboard/components/UserOrderEditForm.tsx:99-114 | editing loads the order's fields with "" or 0 fallbacks; creating loads empty fields |
| UserOrderEditForm.SubmitRequest | src/app/dashboard/components/UserOrderEditForm.tsx:116-131 | PUT or POST with four text fields trimmed and no status, designer, workers or user |
| UserOrderEditForm.OwnerCreatesUnassigned | src/app/dashboard/components/UserOrderEditForm.tsx:116-131 | an order created by the owner form is the owner's, pending, without designer or workers |
| UserOrderEditForm.EditFormState.Reset | src/app/dashboard/components/UserOrderEditForm.tsx:99-114 | the form holds the reset content; the services list is untouched |
| UserOrderEditForm.EditFormState.ServicesLoaded | src/app/dashboard/components/UserOrderEditForm.tsx:87-88 | the services list becomes the fetched one, or [] when absent |
| ServiceForm.Errors | src/app/dashboard/components/ServiceForm.tsx:29-34 | the flagged fields are exactly those whose rule fails |
| ServiceForm.ErrorsEmptyIff | src/app/dashboard/components/ServiceForm.tsx:29-34 | valid iff name >= 3 chars, description >= 10, price >= 0 and category >= 3 |
| ServiceForm.ResetValues | src/app/dashboard/components/ServiceForm.tsx:59-70 | editing loads the service; with no service the empty defaults |
| ServiceForm.SubmitRequest | src/app/dashboard/components/ServiceForm.tsx:72-81 | PUT /api/services/{id} when editing, POST /api/services otherwise, with the values as entered |
| ServiceForm.ZeroPriceAcceptedThenRefused | src/app/dashboard/components/ServiceForm.tsx:32 | price 0 passes the form, and the create handler refuses it with 400 |
| ServiceForm.PositivePriceHasRequiredFields | src/app/dashboard/components/ServiceForm.tsx:29-34 | any other valid price passes the handler's required-field check |
| ServiceForm.FormState.Reset | src/app/dashboard/components/ServiceForm.tsx:59-70 | the form holds the reset values |
| PortfolioForm.Errors | src/app/dashboard/components/PortfolioForm.tsx:29-34 | the flagged fields are exactly those whose rule fails |
| PortfolioForm.ErrorsEmptyIff | src/app/dashboard/components/PortfolioForm.tsx:29-34 | valid iff title >= 2 chars, description >= 10, the URL check passes and category >= 2 |
| PortfolioForm.ResetValues | src/app/dashboard/components/PortfolioForm.tsx:59-70 | editing loads the item; with no item the empty defaults |
| PortfolioForm.SubmitRequest | src/app/dashboard/components/PortfolioForm.tsx:72-83 | PUT /api/portfolio/{id} when editing, POST /api/portfolio otherwise, with the values and no user |
| PortfolioForm.ValidFormHasRequiredFields | src/app/dashboard/components/PortfolioForm.tsx:29-34 | a valid form passes the create handler's required-field check when the URL test refuses "" |
| PortfolioForm.FormState.Reset | src/app/dashboard/components/PortfolioForm.tsx:59-70 | the form holds the reset values |
| UserForm.Errors | src/app/dashboard/components/UserForm.tsx:36-39 | the flagged fields are exactly those whose rule fails |
| UserForm.ErrorsEmptyIff | src/app/dashboard/components/UserForm.tsx:36-39 | valid iff the name has 2 or more chars and the role is one of the four values |
| UserForm.SubmitRequest | src/app/dashboard/components/UserForm.tsx:67-75 | nothing without a selected user; otherwise one PUT /api/users/{id} with exactly name and role |
| UserForm.SubmittedRoleIsKnown | src/app/dashboard/components/UserForm.tsx:36-75 | a valid submission carries a role that parses and names itself, and a name of 2 or more chars |
| UserForm.FormState.Reset | src/app/dashboard/components/UserForm.tsx:58-65 | a selected user loads its name and role; no user leaves the fields as they were |

## Left out

- Database connection (`connectDB`), `populate`, `select` projections other than the password one, and the sort key: a collection is a sequence already in the requested order. Only the direction (`OrdersApi.SortDirection`) is modelled.
- Exceptions from the database are the `storeUp` parameter. Exceptions from JSON parsing of a request body are not modelled, and neither are withAuth's 401 "Authentication failed" branch and the middleware's catch-all /login redirect.
- The JWT libraries (`jsonwebtoken`, `jose`) and bcrypt are abstract: `decode`/`encode` parameters, and symbolic `Hashed` passwords of length 60.
- `parseInt` of query parameters: page and limit enter as integers. `OrdersApi.ListOrders`, `ServicesApi.ListServices` and `UsersApi.ListUsers` require both to be at least 1; `NaN`, zero and negative values are not modelled.
- Floating-point numbers: prices, budgets and totals are integers.
- The MongoDB text index ranking and tokenisation are the abstract `matches` relation.
- ObjectId format checks: ids are opaque strings and `Schema.CastsToId` accepts every non-empty one. The 500 replies a malformed id causes through a CastError in `findById` (src/app/api/orders/route.ts:117-119, src/app/api/auth/me/route.ts:20 and 35) are not modelled.
- Timestamps are the `now` parameter.
- Mongoose's application of `trim`/`lowercase` setters to query filters is assumed (login lookups compare normalised emails).
- `findOne` with an absent email is taken to match no user.
- `revalidatePath`, toasts, dialogs, `useEffect` scheduling, debouncing and the fetches' network layer are not modelled. A fetch is modelled as the `Request` it sends, and a reply as fetched data.
- The dashboard forms' `zod` coercion of the budget and price inputs is not modelled: they enter as numbers.
- The URL validator used by the portfolio form is the abstract `isUrl`.
- String lengths count characters in Dafny's `char` (UTF-16 code units are not distinguished); `\s` is the ECMAScript whitespace set.
- The single-order route `/api/orders/[id]` (update, delete and take) is not part of this model. The client's edit predicates are modelled, not the server's update rules.
- ApiAuth.SchemeIgnored: stated for any space-free scheme word and token; concrete headers such as "Basic xyz" are instances of it, not separate facts.
- UserModel.NormalizeEmail: lower-cases only the ASCII letters A to Z; `toLowerCase` also maps other letters (such as "É" to "é"), which the model leaves unchanged. The same holds for `Strings.ToLower` and `Strings.ToUpperChar` wherever the source calls `toLowerCase` or `toUpperCase`.
- OrderUtils.CanUpdateOrderStatus and OrderUtils.CanUpdatePaymentStatus carry no contract of their own: their tables are stated by `OrderMovesTable` and `PaymentMovesTable`.
- DataTable.Pager: one class stands for both the table's own page state and a parent's page state in server mode.

## Findings

| source | as written | input that shows it | evidently intended | confidence | as-written member | corrected member |
|---|---|---|---|---|---|---|
| src/app/api/register/route.ts:21-29 | the handler hashes the password, and the User pre-save hook hashes the modified field again | registering with password "secret12" stores hash(hash("secret12")); logging in with "secret12" answers 401 | the stored value is hash(password), so the new user can log in | high, not executed | LegacyRegisterApi.RegisteredUserCannotLogIn | LegacyRegisterApi.FixedRegisterThenLogin |
| src/actions/portfolioActions.ts:26 | `new PortfolioItem(data)` never sets the required `user` field | any call by an admin with a complete item: validation fails on `user` and the action returns "Failed to create portfolio item." | the item is stamped with the admin's id and saved | high, not executed | PortfolioActions.AsWrittenAlwaysFails | PortfolioActions.FixedSucceedsForAdmins |
