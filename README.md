# Request-decision logic of the TKOaly auth back office, in Dafny

This project models the decisions the back office makes around its HTTP and
database calls: the authorization middleware that finds a bearer token (an
`Authorization: Bearer` header, else the `token` cookie) and turns it into an
identity or one error response; the payment validator that checks a creation
body and rewrites it in place; the payment controller handlers with their
full-replace check, role gate and error-to-status mapping; and the user
service's not-found errors, filter-keyword to SQL-condition mapping, login
with migration of legacy password hashes, and password re-crypt.

Everything outside those decisions is an oracle. The user DAO and the payment
service are classes whose read answers are fixed functions and whose writes
and calls are logged in a sequence field, so the model can say which calls a
handler makes, in which order, and with what data. Token decoding
(`stringToServiceToken`), `validatePassword`, `bcrypt.hash(password, 13)` and
`compareRoles` are function parameters. The clock (`new Date()`) is the
parameter `now`.

Files, one module each:

- `wrappers.dfy` (`Wrappers`): `Option` and `Result`.
- `js_values.dfy` (`JsValues`): JavaScript values and truthiness; a body or
  payment is a map from property names to values.
- `service_error.dfy` (`ServiceErrors`): a thrown error with its optional
  `httpErrorCode` and `httpStatusCode`, `ServiceError(code, message)`, and the
  two status choices `err.httpErrorCode || 500` (controllers) and
  `e.httpStatusCode || 500` (middleware).
- `models.dfy` (`Models`): user records, the `User` object, the decoded token
  and the attached identity.
- `http.dfy` (`Http`): request, response and body objects and the
  `ServiceResponse` envelope.
- `user_service.dfy`, `authorize_middleware.dfy`, `payment_validator.dfy`,
  `payment_controller.dfy`: the four core files.

Each handler and the middleware has a pure outcome function and an
imperative method. The method runs the source's steps on the request,
response, body and service objects. Its `ensures` ties the new state to the
outcome function: the responses written, the identity attached, the calls
logged and the body left behind. The lemmas state the source's promises
about the outcome functions.

Behaviours of the code worth knowing, each proved about the model:

- The middleware reads `e.httpStatusCode`, but `ServiceError` sets only
  `httpErrorCode` (src/utils/ServiceError.ts:15). A token naming a missing
  user is therefore answered 500, not 404 (`MissingUserAnswers500`).
- An error from the migration `updateUser` during login propagates, and the
  login fails with it (src/services/UserService.ts:101-112,
  `LoginMigratesLegacyHashes`).
- `createUser` hashes with bcrypt but leaves the salt as supplied
  (src/services/UserService.ts:129-137, `UserService.CreateUser`).
- With an empty password that `validatePassword` accepts, the migration
  stores salt `"0"` and no hash, because `updateUser` re-crypts only a truthy
  password (src/services/UserService.ts:145, `MigrationRecordContents`).
- `createPayment` and `modifyPayment` report success even when the payment
  they fetch afterwards is missing, with `data` undefined
  (src/controllers/PaymentController.ts:53-58, 106-111,
  `SuccessWithUndefinedPayment`).
- A DAO answering `null` for a username makes the availability check report
  it taken while login refuses it as unknown
  (src/services/UserService.ts:91, 121, `NullRowTakenButUnknown`).

## Model

| member | source | states |
|---|---|---|
| `ServiceErrors.ControllerStatusOfServiceError` | src/controllers/PaymentController.ts:59-63 | a controller answers a `ServiceError` with the code it was built with (500 only for code 0) |
| `ServiceErrors.MiddlewareStatusOfServiceError` | src/utils/AuthorizeMiddleware.ts:63-72 | the middleware answers every `ServiceError` with 500, because it reads `httpStatusCode`, which a `ServiceError` lacks |
| `ServiceErrors.OrInternalError` | src/utils/AuthorizeMiddleware.ts:66 | `code \|\| 500`: a present non-zero code is kept; a missing or zero code gives 500; the status is never 0 |
| `AuthorizeMiddleware.BearerHeaderTakesPrecedence` | src/utils/AuthorizeMiddleware.ts:51-56 | a header `"Bearer " + t` yields the token `t`, whatever the cookie |
| `AuthorizeMiddleware.NonBearerHeaderIgnored` | src/utils/AuthorizeMiddleware.ts:52 | a header not starting with `"Bearer "`, including the lower-case scheme, selects the same token as no header at all |
| `AuthorizeMiddleware.NoTokenOutcomes` | src/utils/AuthorizeMiddleware.ts:96-103 | with no Bearer header and no truthy `token` cookie, `authorize` answers 401 "Unauthorized" without `next`, and `loadToken` calls `next` attaching nothing |
| `AuthorizeMiddleware.TokenAcceptedIffResolved` | src/utils/AuthorizeMiddleware.ts:53-62 | a found token is accepted iff it decodes and its user exists, and then `{token: parsed, user}` is attached |
| `AuthorizeMiddleware.MissingUserAnswers500` | src/utils/AuthorizeMiddleware.ts:57-69 | a token naming a user the DAO lacks is answered 500 "Not found" by both `authorize` and `loadToken` |
| `AuthorizeMiddleware.RejectionStatus` | src/utils/AuthorizeMiddleware.ts:63-72 | a rejected token is answered with `e.httpStatusCode \|\| 500` and the error's message |
| `AuthorizeMiddleware.ModeOnlyChoosesEnvelope` | src/utils/AuthorizeMiddleware.ts:64-72 | `returnAsJson` changes neither the decision nor the status nor the message, only JSON envelope versus `serviceError` view |
| `AuthorizeMiddleware.LoadTokenAgreesWithAuthorize` | src/utils/AuthorizeMiddleware.ts:107-149 | with a token present `loadToken` decides as `authorize(true)`; without one it proceeds while `authorize` answers 401 |
| `AuthorizeMiddleware.Resolve` | src/utils/AuthorizeMiddleware.ts:54-61 | resolution succeeds iff decoding and the user fetch both succeed, and yields the parsed token with the fetched user |
| `AuthorizeMiddleware.Authorize` | src/utils/AuthorizeMiddleware.ts:40-105 | either calls `next` with the identity attached and no response written, or writes exactly one response and leaves `req.authorization` alone, as `AuthorizeOutcome` decides |
| `AuthorizeMiddleware.LoadToken` | src/utils/AuthorizeMiddleware.ts:107-149 | as `Authorize`, but without a token it calls `next` and leaves `req.authorization` unset |
| `AuthorizeMiddleware.AttachOrReject` | src/utils/AuthorizeMiddleware.ts:53-73 | the try/catch of one token branch: attaches the identity and calls `next`, or writes one error response |
| `PaymentValidator.ValidateCreate` | src/validators/PaymentValidator.ts:6-22 | throws `ServiceError(400, "Invalid POST data")` leaving the body untouched, or leaves the body `ValidatedCreate` describes |
| `PaymentValidator.ValidateUpdate` | src/validators/PaymentValidator.ts:24-26 | never throws and changes nothing |
| `PaymentValidator.RejectsExactlyIncompleteBodies` | src/validators/PaymentValidator.ts:7-15 | a body is refused iff one of `payer_id`, `amount`, `valid_until`, `payment_type` is falsy, always with 400 "Invalid POST data" |
| `PaymentValidator.FalsyCountsAsMissing` | src/validators/PaymentValidator.ts:8-10 | an `amount` of 0 or an empty `payer_id` is refused like a missing one |
| `PaymentValidator.AcceptedBodyShape` | src/validators/PaymentValidator.ts:17-21 | an accepted body has `created` = now, keeps `id` only if it was falsy, and keeps every other property |
| `PaymentValidator.ValidateCreateIdempotent` | src/validators/PaymentValidator.ts:6-22 | validating an accepted body again at the same instant changes nothing |
| `PaymentController.CreatePayment` | src/controllers/PaymentController.ts:47-64 | writes one response and makes the service calls `CreateOutcome` gives, and leaves the body as the validator made it |
| `PaymentController.ModifyPayment` | src/controllers/PaymentController.ts:74-122 | writes one response and makes the service calls `ModifyOutcome` gives |
| `PaymentController.GetAllPayments` | src/controllers/PaymentController.ts:132-146 | writes one response and makes the service calls `GetAllOutcome` gives |
| `PaymentController.GetSinglePayment` | src/controllers/PaymentController.ts:156-177 | writes one response and makes the service calls `GetSingleOutcome` gives |
| `PaymentController.CreateValidatesBeforeInsert` | src/controllers/PaymentController.ts:47-58 | a refused body gives 400 "Invalid POST data" and no call; an accepted one is inserted first as validated; the handler succeeds iff the insert and the fetch by the first insert id succeed, and then answers 201 with that payment and "Payment created" |
| `PaymentController.ModifyRequiresFullObject` | src/controllers/PaymentController.ts:76-99 | no service call happens iff one of the nine properties is falsy, and then the answer is 400 "...missing request parameters"; otherwise `updatePayment` comes first |
| `PaymentController.ModifyOutcomes` | src/controllers/PaymentController.ts:101-116 | an update reporting false gives 400 "Failed to modify payment"; a true one gives 200 with the refetched payment, "Payment modified", `success` |
| `PaymentController.RoleGate` | src/controllers/PaymentController.ts:133-139 | a role comparing below "yllapitaja" gets 403 "Forbidden" with no service call; otherwise the service is called |
| `PaymentController.SinglePaymentFound` | src/controllers/PaymentController.ts:162-171 | a missing payment gives 404 "Payment not found"; the handler succeeds, with 200 and the payment, iff the payment is found |
| `PaymentController.CaughtErrorsKeepTheirStatus` | src/controllers/PaymentController.ts:117-121 | a caught error is answered `err.httpErrorCode \|\| 500` with no data and its message, so a validation error is 400 |
| `PaymentController.CreateKeepsEnvelopeConvention` | src/controllers/PaymentController.ts:47-64 | `success` only with status 201, "Payment created" and the fetched payment (possibly undefined) as data; no data on failure |
| `PaymentController.ModifyKeepsEnvelopeConvention` | src/controllers/PaymentController.ts:74-122 | `success` only with status 200, "Payment modified" and the refetched payment (possibly undefined) as data; no data on failure |
| `PaymentController.ReadsKeepEnvelopeConvention` | src/controllers/PaymentController.ts:132-177 | `success` only with status 200: the list for `getAllPayments`, an existing payment for `getSinglePayment`; no data on failure |
| `PaymentController.SuccessWithUndefinedPayment` | src/controllers/PaymentController.ts:53-58 | when the fetch after a successful insert or update finds nothing, create answers 201 and modify 200, both with `success` and `data` undefined |
| `UserService.FetchUser` | src/services/UserService.ts:13-20 | the user with that id, `ServiceError(404, "Not found")` when the DAO answers `undefined` or `null`, the DAO's error otherwise |
| `UserService.NonEmpty` | src/services/UserService.ts:77-79 | an empty list answer becomes `ServiceError(404, "No results returned")`; a non-empty one passes unchanged |
| `UserService.SearchUsers` | src/services/UserService.ts:32-41 | succeeds iff the DAO returns a non-empty list, which it returns; an empty list gives 404 "No results returned" |
| `UserService.FetchAllWithSelectedFields` | src/services/UserService.ts:43-82 | the loop builds exactly `ConditionQuery(conditions)` and the result is the DAO answer for it, refused when empty |
| `UserService.FragmentsAppend` | src/services/UserService.ts:50-70 | the fragments of a concatenation are the concatenation of the fragments |
| `UserService.FragmentsLength` | src/services/UserService.ts:50-70 | never more fragments than keywords, and as many exactly when every keyword is known |
| `UserService.FragmentsKnown` | src/services/UserService.ts:51-67 | every fragment is one of the five fixed SQL conditions |
| `UserService.FragmentsOfKnown` | src/services/UserService.ts:50-70 | with known keywords, the i-th fragment is the i-th keyword's (order and duplicates kept) |
| `UserService.FragmentsExample` | src/services/UserService.ts:50-70 | `paid, bogus, member, paid` gives the paid, member, paid conditions |
| `UserService.ConditionQueryAbsentVersusEmpty` | src/services/UserService.ts:47-49 | no conditions give `null`; an empty list gives an empty list |
| `UserService.CheckUsernameAvailability` | src/services/UserService.ts:117-122 | true iff the DAO's answer for that username is `undefined` (a `null` answer reads as taken) |
| `UserService.CheckEmailAvailability` | src/services/UserService.ts:124-127 | true iff the DAO's answer for that email is `undefined` (a `null` answer reads as taken) |
| `UserService.RecryptedEffect` | src/services/UserService.ts:144-148 | with a truthy password salt becomes `"0"` and the hash is replaced, nothing else; otherwise the user is unchanged |
| `UserService.UpdateUser` | src/services/UserService.ts:139-157 | re-crypts the passed user in place, stores a copy with the DAO and returns its answer |
| `UserService.CreateUser` | src/services/UserService.ts:129-137 | sets the bcrypt hash on the passed user (salt untouched), saves a copy and returns the first insert id |
| `UserService.GetUserWithUsernameAndPassword` | src/services/UserService.ts:84-115 | returns and writes what `Login` describes |
| `UserService.LoginUnknownUser` | src/services/UserService.ts:91-93 | an unknown username (`undefined` or `null` row) gives 404 "User not found" and no write |
| `UserService.LoginCorrectPassword` | src/services/UserService.ts:101-112 | a password the validator accepts returns the user as read, when the salt is already `"0"` or the migration write succeeds |
| `UserService.LoginWrongPassword` | src/services/UserService.ts:101-114 | a rejected password gives 401 "Invalid username or password" and no write |
| `UserService.LoginMigratesLegacyHashes` | src/services/UserService.ts:101-112 | with a correct password a salt-`"0"` record is written iff the stored salt is not `"0"`; a failing write fails the login; a successful login returns the user as read |
| `UserService.MigrationRecordContents` | src/services/UserService.ts:104-110 | the migration record holds salt `"0"`, the bcrypt hash of a non-empty password, and nothing else |
| `UserService.AvailabilityMatchesLogin` | src/services/UserService.ts:117-122 | a username reported available is one whose login fails with "User not found" |
| `UserService.NullRowTakenButUnknown` | src/services/UserService.ts:84-122 | a `null` DAO row makes the username read as taken while login refuses it with 404 "User not found" |

## Left out

- Express routing and `createRoutes`. The route table binds the curried
  `authorize` itself as middleware (src/controllers/PaymentController.ts:188),
  so as written it would return a middleware instead of running one. Only the
  inner middleware is modelled.
- The DAOs, `PaymentService` and SQL semantics. Their answers are oracle
  functions. A fetch after a write is not related to that write.
- `stringToServiceToken`, `validatePassword`, `bcrypt.hash` and
  `compareRoles`: their code is not part of this model. They are
  uninterpreted function parameters. Nothing is claimed about token
  round-trips, hash correctness or the role order.
- `new User(record)`, `Object.assign` and `getDatabaseObject` are modelled
  as copying the six user properties the core touches. Other user properties
  are not modelled. `new UserPayment(row)` is modelled as the row itself.
- `bcrypt.hash(password, 13)` draws a random salt on every call. The model
  treats it as a deterministic function `hash`, so the records written by
  `UpdateUser`, `CreateUser` and the login migration name `hash(password)`,
  where the real hash differs from call to call.
- `fetchAllUsers`, `fetchAllUnpaidUsers` and `deleteUser`: each forwards one
  DAO call with no decision of its own.
- Async suspension and request concurrency. Each request is modelled as one
  sequential run.
- Exceptions outside the handlers' try blocks, such as a throwing
  `compareRoles` or a missing `req.authorization`. The read handlers require
  an attached identity, which the middleware provides.
- An exception thrown by `next()` itself inside the middleware's try block.
- NaN and non-string query values. Numbers are reals and keywords are strings.
- The rendered view beyond its template name and error text. The session and
  `LoginStep` declarations.
- `PrivacyPolicyController`: a keyed fetch with a fixed 200/404/500 answer.
- `ServiceToken` is reduced to its user id, the only claim the core reads.
