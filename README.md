# Auth boilerplate server, modelled in Dafny

This project models the Express/Mongoose authentication server of the
`fullstack-auth-boilerplate-with-google` repository. It covers the request
pipeline and the account operations:

- **Application-wide layers.** The auth middleware reads the bearer token and
  copies its claims to `req.authUser`. The CORS origin check follows it. The
  exception filter at the end turns every forwarded error into the answer.
- **Routes.** `UserController` binds its ten routes through `BaseController`.
  Each route's middlewares (validation, `AuthGuard`, `RoleGuard`) run in
  declared order before the handler. `handleRequest` turns what a handler
  throws into an `HTTPError`.
- **Accounts.** `UserService` works on the Mongo `users` collection:
  registration, login, profile and password updates, the forgot/reset
  password flow, the current user and the Google strategy callback. The
  `User` schema's defaults and validators apply to every write.
- **Utilities.** Pagination numbers, the `{ success, data, pagination }`
  envelope and the sort lookup.

**How the model is built.**

- **Collection.** The collection is a `seq<User>` in natural order, the order
  in which `findOne` scans. Its invariant `ValidUsers` says the schema holds
  for every document and that the `_id` and the `unique` email index admit no
  duplicates. Every write preserves the invariant.
- **Middleware steps.** What a middleware or handler does is a `Step`:
  - `next()` is `Continue`, and `next(err)` is `Forward`;
  - `Raise` is a synchronous throw, which Express hands to the error handlers;
  - `Reply` is a written response;
  - `Stall` is neither, and the request hangs.
- **Tokens.** `jsonwebtoken`'s `sign` and `verify` are function-typed
  parameters. `VerifiesOwnTokens` states the one property of them the model
  relies on: a token signed with a secret verifies to exactly its claims.
- **Passwords.** bcrypt is kept symbolic: a hash records the password it was
  made from, and `compare` accepts exactly that password.
- **Validation.** The class-validator decorators of the DTOs are rule tables
  (`Dto.Schema`) checked by one validator. The e-mail syntax test of the
  validator library is a parameter `isEmail`.

Proved about the whole, beyond each operation's own contract:

- **Session tokens.** A token the server issued authenticates its owner on
  `/me`, which answers with the owner's profile (`SessionReachesProfile`).
- **Reset token.** The reset token is a bearer token too. The auth guard
  refuses it, but it carries exactly the `_id` the unguarded `PUT /` and
  `PUT /password` act on (`ResetTokenIsBearer`, `ProfileUpdatesUnguarded`).
- **Session token on reset.** A session token, which never expires, passes
  the reset route's token check (`SessionTokenResetsPassword`).
- **Admin login.** `POST /admin-login` is opened by the role in the caller's
  token, never by the credentials in its body (`AdminLoginGate`).
- **CORS list.** A CORS list written with spaces after the commas admits only
  its first origin (`SpacedListRejectsSecond`).

## Model

| member | source | states |
|---|---|---|
| ValidateMiddleware.FlattenErrors | server/src/common/validate.middleware.ts:14-24 | the two nested `forEach` loops fill `errorsObject` exactly as the write-by-write fold `Flatten` does, and fail exactly where a write meets `constraints` undefined |
| ValidateMiddleware.Flatten | server/src/common/validate.middleware.ts:14-24 | the `errorsObject` the loops build; FlattenLastWrite states its keys and values |
| ValidateMiddleware.PutAllSucceeds | server/src/common/validate.middleware.ts:16-24 | the flattening succeeds if and only if every written error has constraints (`Object.values(undefined)` throws otherwise) |
| ValidateMiddleware.PutAllGet | server/src/common/validate.middleware.ts:16-24 | after the writes a property holds the constraints of its last write, and an unwritten property keeps its earlier value |
| ValidateMiddleware.PutAllDistinct | server/src/common/validate.middleware.ts:14-24 | the errors object never repeats a key |
| ValidateMiddleware.FlattenLastWrite | server/src/common/validate.middleware.ts:14-24 | the flattened object exists iff every write has constraints; its keys are distinct and each key maps to its last write |
| ValidateMiddleware.WritesOfOneError | server/src/common/validate.middleware.ts:17-23 | an error with an empty `children` list writes itself; one with children writes each child and not itself; one with `children` undefined writes nothing |
| ValidateMiddleware.DtoWrites | server/src/common/validate.middleware.ts:16-24 | for the flat DTOs every error is written once, in order |
| ValidateMiddleware.ErrorsJson | server/src/common/validate.middleware.ts:26 | the `errors` JSON has the object's keys in order, each holding its messages as a string array |
| ValidateMiddleware.ValidateStepContinues | server/src/common/validate.middleware.ts:13-29 | the middleware calls `next()` exactly when there is no error, and never throws |
| ValidateMiddleware.ValidateStep | server/src/common/validate.middleware.ts:12-29 | what the middleware does with the error list; ValidateStepContinues and DtoErrorsResponse state its answers |
| ValidateMiddleware.ValidateMiddleware.Exec | server/src/common/validate.middleware.ts:9-31 | `exec` calls `next()` iff validation found nothing, and answers 422 with the flattened `{ errors }` iff it found something; for DTO errors the flattening never throws, so it never hangs |
| ValidateMiddleware.DtoLastWrite | server/src/common/validate.middleware.ts:16-24 | for a rule table with distinct properties, the last write to a property is that property's own messages |
| ValidateMiddleware.NoWriteOf | server/src/common/validate.middleware.ts:16-24 | a property absent from the rule table is never written |
| ValidateMiddleware.DtoErrorsResponse | server/src/common/validate.middleware.ts:12-26 | a failing body is answered 422, and `errors` maps each failing property to its messages and omits every passing one |
| ValidateMiddleware.FailingPropertyResponse | server/src/common/validate.middleware.ts:12-26 | one failing property is enough for a 422 whose `errors` maps it to its messages |
| ValidateMiddleware.RegisterDistinct | server/src/user/dto/user-register.dto.ts:11-32 | the register DTO's properties are distinct and the third is `password` |
| ValidateMiddleware.RegisterShortPasswordResponse | server/src/user/dto/user-register.dto.ts:18-22 | a register body with a password string under six characters is answered 422 with `errors.password == ['min length 6']` |
| Dto.Violations | server/src/user/dto/user-register.dto.ts:18-22 | a property's messages are empty iff every one of its decorators holds, and there is at most one per decorator |
| Dto.Validate | server/src/common/validate.middleware.ts:10-12 | no more errors than properties, each with an empty `children` list and a non-empty list of constraint messages |
| Dto.ValidateEmpty | server/src/common/validate.middleware.ts:12-13 | a body passes iff no property has a violated constraint |
| Dto.RegisterMessages | server/src/user/dto/user-register.dto.ts:11-32 | every register field records exactly the messages its decorators give: 'email', 'phone', 'min length 6' and 'pass' (in decorator registration order), 'ad', and 'provider' unless the provider is absent, null, 'google' or 'basic' |
| Dto.RegisterShortPassword | server/src/user/dto/user-register.dto.ts:18-22 | a password string shorter than six characters gets the single message 'min length 6' |
| Dto.RegisterAcceptsBasicProvider | server/src/user/dto/user-register.dto.ts:27-31 | the provider value 'basic' passes the register rules |
| Dto.RegisterValidParses | server/src/user/dto/user-register.dto.ts:11-32 | a body that passes the register rules has the declared shape, an e-mail, a password of at least six characters, and a provider of 'google' or 'basic' when present |
| Dto.FieldPasses | server/src/user/dto/user-register.dto.ts:11-32 | what passing each single register field's rules guarantees about that field |
| Dto.StringSchemaValid | server/src/user/dto/user-update.dto.ts:3-13 | a DTO of `@IsString` members passes iff every listed member is a string (update, update-password, forgot and reset DTOs) |
| Dto.RegisterPasswordMessages | server/src/user/dto/user-register.dto.ts:18-22 | the password's messages are 'min length 6' then 'pass', each present exactly when its rule fails |
| Dto.ParseRegister | server/src/common/validate.middleware.ts:10 | a parsed register DTO carries the body's own email, phone, password and name strings, and its provider is the body's string or absent for `undefined`/`null` |
| Dto.ParseLogin | server/src/user/dto/user-login.dto.ts:3-16 | a parsed login DTO carries the body's email and password strings |
| Dto.ParseUpdate | server/src/user/dto/user-update.dto.ts:3-13 | a parsed update DTO carries the body's name and phone strings |
| Dto.ParseUpdatePassword | server/src/user/dto/user-update-password.dto.ts:3-13 | a parsed DTO carries the body's password and newPassword strings |
| Dto.ParseForgotPassword | server/src/user/dto/user-forgot-password.dto.ts:3-8 | a parsed DTO carries the body's email string |
| Dto.ParseResetPassword | server/src/user/dto/user-reset-password.dto.ts:3-13 | a parsed DTO carries the body's password and token strings |
| Dto.LoginValidParses | server/src/user/dto/user-login.dto.ts:3-16 | a login body passes iff it parses and its email passes the e-mail test |
| Dto.UpdateParses | server/src/user/dto/user-update.dto.ts:3-13 | an update body passes iff it parses |
| Dto.UpdatePasswordParses | server/src/user/dto/user-update-password.dto.ts:3-13 | an update-password body passes iff it parses |
| Dto.ForgotPasswordParses | server/src/user/dto/user-forgot-password.dto.ts:3-8 | a forgot-password body passes iff it parses |
| Dto.ResetPasswordParses | server/src/user/dto/user-reset-password.dto.ts:3-13 | a reset-password body passes iff it parses |
| ExceptionFilter.Catch | server/src/errors/exception-filter.ts:16-33 | an `HTTPError` is answered with its own status and `{ success: false, errors: [message] }`; any other error with 500 and `{ err: message }` |
| ExceptionFilter.CatchEnvelopes | server/src/errors/exception-filter.ts:22-32 | only an `HTTPError` answer carries `success`, and the error's context never reaches the client |
| HandleRequest.HandleRequest | server/src/utils/handleRequest.ts:11-25 | a completed handler's effect is kept; a thrown `HTTPError` is forwarded as a copy; anything else becomes a 500 `HTTPError` whose message is the error's string form, with context `GENERAL` |
| HandleRequest.ThrownReachesClientAsHttpError | server/src/utils/handleRequest.ts:18-23 | whatever a wrapped handler throws, the client gets the `{ success: false, errors }` envelope, and a non-HTTP error is answered 500 with `Name: message` |
| HandleRequest.ErrorStringOfNamed | server/src/utils/handleRequest.ts:22 | the string form of a named error with a message is `Name: message` |
| AuthMiddleware.BearerToken | server/src/common/auth.middleware.ts:10 | the token taken from the header never contains a space |
| AuthMiddleware.NoSpaceNoToken | server/src/common/auth.middleware.ts:10 | a header without a space yields no token (`split(' ')[1]` is undefined) |
| AuthMiddleware.BearerTokenOf | server/src/common/auth.middleware.ts:10 | the first word is skipped whatever it says, and the token ends at the next space |
| AuthMiddleware.UserOf | server/src/common/auth.middleware.ts:16-20 | `authUser` receives exactly the payload's `email`, `role` and `_id` |
| AuthMiddleware.Authenticate | server/src/common/auth.middleware.ts:8-28 | the middleware never rejects; without a header, or when verification fails, it calls `next()` and leaves `authUser` alone; a verified object payload sets `authUser` to exactly its `{ email, role, _id }` and calls `next()`, and only such a payload changes `authUser`; it hangs iff a token verifies to a non-object payload |
| AuthMiddleware.AuthMiddleware.Exec | server/src/common/auth.middleware.ts:8-28 | `exec`'s step and the `authUser` it leaves are those of `Authenticate` |
| AuthMiddleware.SignedTokenAuthenticates | server/src/common/auth.middleware.ts:9-22 | a `<scheme> <token>` header with a token the server signed authenticates as exactly the token's claims |
| AuthGuard.Exec | server/src/common/auth.guard.ts:6-12 | `next()` iff `authUser.email` is truthy, otherwise `next(HTTPError(401, 'Authorization error', 'AUTHORIZATION'))` |
| AuthGuard.ResetClaimsRejected | server/src/common/auth.guard.ts:7-10 | claims without an email (`{ _id }` of a reset token) never pass the guard |
| RoleGuard.RoleGuard.Exec | server/src/common/role.guard.ts:9-15 | `next()` iff the role claim is the guard's role; other claims get a 403 'Forbidden Resource'; a missing `authUser` throws on the `.role` read |
| RoleGuard.NoRoleHierarchy | server/src/common/role.guard.ts:10 | roles are compared for equality: a guard admits exactly its own role |
| RoleGuard.RoleWithoutEmail | server/src/common/role.guard.ts:9-15 | claims with the right role and no email pass the role guard but not the auth guard |
| UserSchema.ParseRole | server/src/user/user.interface.ts:10-14 | a string parses as a role only when it is that role's name |
| UserSchema.RoleNameRoundTrip | server/src/user/user.interface.ts:10-14 | every role's name parses back to it, and distinct roles have distinct names |
| UserSchema.ParseProvider | server/src/user/schemas/user.schema.ts:40-44 | the provider `enum` admits 'email' and 'google' only |
| UserSchema.ProviderNameRoundTrip | server/src/user/schemas/user.schema.ts:40-44 | every provider's name parses back to it |
| UserSchema.HashCompare | server/src/user/user.service.ts:87 | a hash accepts the password it was made from and no other |
| UserSchema.PathErrors | server/src/user/schemas/user.schema.ts:11-44 | validation passes iff email and name are non-empty strings and the provider, when given, is in the enum |
| UserSchema.NewRecord | server/src/user/schemas/user.schema.ts:5-47 | `create` applies the defaults (role USER, not deleted, phone unconfirmed, provider 'email') and fails with a `ValidationError` exactly when a path fails |
| UserSchema.Revalidate | server/src/user/schemas/user.schema.ts:5-45 | `save` accepts a document iff it satisfies the schema, and then stores it unchanged |
| UserSchema.NewRecordIsPlainUser | server/src/user/schemas/user.schema.ts:24-35 | no record made by `create` is an administrator or moderator, or deleted |
| UserService.FindFirst | server/src/user/user.service.ts:37 | `findOne` returns the first matching document, and nothing only when no document matches |
| UserService.FindById | server/src/user/user.service.ts:60 | `findById` finds a document with that id whenever one exists, and never for an undefined id |
| UserService.UniqueEmailFound | server/src/user/schemas/user.schema.ts:11-15 | with the unique email index, looking up a stored email finds that very document |
| UserService.UniqueIdFound | server/src/user/schemas/user.schema.ts:7-10 | with unique ids, looking up a stored id finds that very document |
| UserService.FindFirstAppend | server/src/user/user.service.ts:47-53 | a document appended by `create` is found only when no earlier document matches |
| UserService.FindFirstReplace | server/src/user/user.service.ts:74 | saving a document that matches a filter as before leaves every lookup with that filter unchanged |
| UserService.AppendKeepsValid | server/src/user/user.service.ts:47-53 | appending a valid document with a fresh id and email keeps the collection's invariant |
| UserService.ReplaceKeepsValid | server/src/user/user.service.ts:74-76 | replacing a document by a valid one with the same id and email keeps the invariant |
| UserService.Inserted | server/src/user/user.service.ts:47-53 | `create` runs schema validation, then refuses a duplicate `_id` or email through the unique indexes |
| UserService.InsertedKeepsValid | server/src/user/user.service.ts:47-53 | a successful `create` keeps the collection's invariant |
| UserService.UserService.Create | server/src/user/user.service.ts:47-53 | the collection grows by exactly the created document, or stays as it was |
| UserService.UserService.Save | server/src/user/user.service.ts:74 | `save` replaces the one document when it validates, and changes nothing otherwise |
| UserService.UserService.CreateUser | server/src/user/user.service.ts:29-54 | a taken email, then a taken phone, is refused with 400; otherwise the user is created with role USER, and the new account logs in with its registered password |
| UserService.UserService.UpdateUser | server/src/user/user.service.ts:56-77 | an unknown id gives 404; a truthy phone held by any document (the caller's own included) gives 400; otherwise the given name and phone (an empty phone included) replace the stored ones and the document is revalidated; emails and passwords never change |
| UserService.UserService.UpdatePassword | server/src/user/user.service.ts:79-99 | an unknown id gives 404 and a wrong current password 400; afterwards the new password logs in and a different old one does not |
| UserController.SignJWTVerifies | server/src/user/user.service.ts:101-127 | a token `signJWT` issues verifies with the same secret to exactly the claims `{ email, role, _id }` it was given |
| UserService.UserService.ValidateUser | server/src/user/user.service.ts:129-148 | the user holding the email if the password matches; 404 iff no document has that email, 401 for a wrong password, and under the invariant success iff some document holds both |
| UserService.UserService.GetCurrentUser | server/src/user/user.service.ts:150-156 | the user holding the email (the first document for an undefined email, an assumed Mongoose behaviour); 404 iff none matches |
| UserService.UserService.ForgotPassword | server/src/user/user.service.ts:182-200 | 404 iff no document has the email, otherwise `<FRONTEND_URL>?resetPassword=open&token=` followed by the reset token of that user's `_id` |
| UserService.UserService.ResetToken | server/src/user/user.service.ts:192-194 | the `{ _id }` token valid for an hour; ResetTokenIsBearer states what it authenticates as |
| UserService.UserService.ResetPassword | server/src/user/user.service.ts:158-180 | a token that fails verification gives 422; any verified token naming a stored `_id` sets that user's password (cost 10), and the new password then logs in |
| UserService.UserService.GoogleCallback | server/src/user/user.service.ts:217-238 | the user holding the profile's email, or else a new `google` user; with no email on the profile, the first document of the collection (an assumed Mongoose behaviour) |
| UserService.UserService.GoogleLogin | server/src/user/user.service.ts:243-250 | the user holding the email (the first document for an undefined email, an assumed Mongoose behaviour), 404 iff none matches |
| BaseController.Pipeline | server/src/common/base.controller.ts:51-54 | a route's chain is its middlewares in order with the handler last, or the handler alone without middlewares |
| BaseController.Stages | server/src/common/base.controller.ts:52 | one stage per middleware, in order |
| BaseController.Bindings | server/src/common/base.controller.ts:46-56 | one binding per route, in table order |
| BaseController.BindingsSnoc | server/src/common/base.controller.ts:46-56 | binding one more route extends the bindings by that route's |
| BaseController.Router.Register | server/src/common/base.controller.ts:55 | `router[method](path, pipeline)` appends one binding |
| BaseController.BaseController.BindRoutes | server/src/common/base.controller.ts:42-57 | the loop registers exactly `Bindings(routes)`, in order, after what was there |
| BaseController.Send | server/src/common/base.controller.ts:25-32 | a JSON answer with the given status |
| BaseController.OkResponse | server/src/common/base.controller.ts:34-36 | a 200 JSON answer |
| BaseController.Created | server/src/common/base.controller.ts:38-40 | `sendStatus(201)` answers 201 with the status text |
| BaseController.FirstStopSpec | server/src/common/base.controller.ts:54-55 | a route's handler runs iff every middleware calls `next()`; otherwise the answer is that of the first one that does not |
| BaseController.Steps | server/src/common/base.controller.ts:52 | each middleware of a route is run on the same request |
| BaseController.TwoStepGate | server/src/common/base.controller.ts:54 | with two middlewares, the first one's answer when it stops, otherwise the second one's |
| Pagination.CeilDiv | server/src/utils/pagination.ts:25 | `Math.ceil(a / b)` is the least `q` with `a <= q * b` |
| Pagination.GetPaginationData | server/src/utils/pagination.ts:20-40 | `totalPage` is the least page count holding `total` items; no next page on page `totalPage` and no previous page on page 1, and neither without data; otherwise the neighbours are page ± 1 |
| Pagination.NeighboursInRange | server/src/utils/pagination.ts:28-29 | on an existing page the reported neighbours exist, and only the last page lacks a next page |
| Pagination.PastTheEnd | server/src/utils/pagination.ts:28 | the last-page test is an equality: page 3 of 2 still reports a next page 4 |
| Pagination.PaginationJson | server/src/utils/pagination.ts:31-39 | the `pagination` object's keys in order, `totalData`, `totalPage` and `currentPage` holding the numbers, and `null` for a missing neighbour |
| GetData.CreateReturnData | server/src/utils/getData.ts:3-16 | `{ success: true, data }`, with `pagination` added only when given |
| Sort.InheritedNameEscapesFallback | server/src/utils/sort.ts:11-12 | as written, `sort=constructor` yields an inherited member, not a sort order |
| Sort.GetSortCriteria | server/src/utils/sort.ts:8-15 | every input gets one of the two orders, oldest first exactly for `created_asc` |
| Sort.GetSortCriteriaAsWritten | server/src/utils/sort.ts:8-15 | the lookup as written: an inherited member exactly for the `Object.prototype` names, otherwise oldest first exactly for `created_asc` and newest first for everything else |
| Sort.CorrectedAgrees | server/src/utils/sort.ts:8-15 | away from the inherited names the corrected lookup agrees with the one as written |
| UserController.OnlyMeIsAuthGuarded | server/src/user/user.controller.ts:45-108 | among the ten routes only `/me` carries the auth guard |
| UserController.RouteTable | server/src/user/user.controller.ts:45-108 | the ten routes, no two sharing a method and a path |
| UserController.ValidationOnlyIgnoresAuth | server/src/user/user.controller.ts:58-69 | on a route whose middlewares only validate, whether the handler runs never depends on `authUser` |
| UserController.ProfileUpdateMiddlewares | server/src/user/user.controller.ts:58-69 | `PUT /` and `PUT /password` only validate their bodies |
| UserController.ProfileUpdatesUnguarded | server/src/user/user.controller.ts:58-69 | `PUT /` and `PUT /password` let any caller through, with a token or without |
| UserController.AdminLoginMiddlewares | server/src/user/user.controller.ts:70-78 | `POST /admin-login` validates a login body, then checks the ADMIN role |
| UserController.AdminLoginGate | server/src/user/user.controller.ts:70-78 | `login` runs on `/admin-login` iff the body is a valid login and the caller's token already has role ADMIN; a valid body without a token makes the guard throw |
| UserController.GoogleRoutesBare | server/src/user/user.controller.ts:98-107 | the Google routes carry no middlewares |
| UserController.ProfileView | server/src/user/user.controller.ts:349-366 | the profile sent is `{ _id, email, name, phone?, role }`, each holding the stored document's value (the role by name); `phone` is absent when the document has none |
| UserController.UserController.constructor | server/src/user/user.controller.ts:45-108 | the router holds exactly the bindings of the route table |
| UserController.UserController.TokenView | server/src/user/user.controller.ts:167-180 | `{ email, name, phone?, token }` holding the user's email, name and phone and the session token; no password hash or flag is sent |
| UserController.UserController.Token | server/src/user/user.controller.ts:165 | the session token `signJWT(email, role, _id, SECRET)`; SignJWTVerifies and SessionReachesProfile state what it verifies to |
| UserController.UserController.Register | server/src/user/user.controller.ts:154-182 | a new account answered with its session token, and it then logs in with the registered password; a taken email is refused unchanged |
| UserController.UserController.Login | server/src/user/user.controller.ts:184-217 | a token answer iff the credentials are valid and the account is not soft-deleted; a deleted account gets 403 'User removed' |
| UserController.UserController.ValidatedIsTheHolder | server/src/user/user.service.ts:133-147 | under the invariant the user `validateUser` returns is the one document holding the email |
| UserController.UserController.UpdateUser | server/src/user/user.controller.ts:219-252 | without `authUser` the destructuring throws; a success means the user the token's `_id` names now has the new name and phone and is sent a fresh token, while every other document stays as it was; an error leaves the collection unchanged |
| UserController.UserController.UpdatePassword | server/src/user/user.controller.ts:254-287 | without `authUser` the destructuring throws; a success means the new password logs in for the user the token's `_id` names, while every other document stays as it was; an error leaves the collection unchanged |
| UserController.UserController.ForgotPassword | server/src/user/user.controller.ts:289-314 | `{ resetUrl }` iff the email is known, 404 otherwise |
| UserController.UserController.ResetPassword | server/src/user/user.controller.ts:316-337 | answers with the `_id` whose password was set, that password then logs in, and every other document stays as it was; an error leaves the collection unchanged |
| UserController.UserController.CurrentUser | server/src/user/user.controller.ts:339-368 | behind the guard, the profile of the user holding the token's email iff that account exists; without `authUser` the `.email` read throws |
| UserController.UserController.GoogleAuthCallback | server/src/user/user.controller.ts:126-152 | redirects to `<FRONTEND_URL>/auto-login?token=` with the user's session token; a failed strategy writes nothing |
| UserController.SessionReachesProfile | server/src/user/user.controller.ts:339-368 | a session token the server issued passes the auth guard and `/me` answers with its owner's profile |
| UserController.ResetTokenIsBearer | server/src/user/user.service.ts:192-194 | the reset token authenticates as `{ _id }` with no email: refused by the auth guard, but naming the `_id` the profile updates act on |
| UserController.SessionTokenResetsPassword | server/src/user/user.service.ts:166 | a session token passes `resetPassword`'s token check and names its owner's `_id` |
| App.Port | server/src/app.ts:39 | `+PORT \|\| 9999`: never 0, and 9999 exactly when the value is unset, not a number, 0 or 9999 |
| App.PortOfNumber | server/src/app.ts:39 | a decimal `PORT` is the port used |
| App.IsDev | server/src/app.ts:40 | development mode exactly when `NODE_ENV` is `'development'`; the constructor stores it |
| App.ParseOrigins | server/src/app.ts:52-53 | no origins when `CORS_ORIGIN` is unset or empty, else comma-free, untrimmed pieces that join back to the setting |
| App.CorsOrigin | server/src/app.ts:56-63 | allowed iff the origin is absent, blank once trimmed, or its trimmed form is an entry exactly; otherwise 'Not allowed by CORS' |
| App.UntrimmedEntryNeverMatches | server/src/app.ts:53-58 | an entry with outer white space can never match a trimmed origin |
| App.SpacedListRejectsSecond | server/src/app.ts:52-63 | with `CORS_ORIGIN="a, b"` the origin `b` is refused |
| App.CorsRejectionAnswer | server/src/app.ts:61 | the CORS error is answered 500 with `{ err: 'Not allowed by CORS' }` |
| App.Respond | server/src/app.ts:47-49 | a written answer goes out as is; a forwarded or thrown error goes to the exception filter |
| App.App.constructor | server/src/app.ts:37-41 | the port and the development flag come from the configuration |
| App.App.UseMiddleware | server/src/app.ts:51-73 | the auth middleware, CORS, the JSON body parser and passport, in that order |
| App.App.UseRoutes | server/src/app.ts:43-45 | the user router under `/api/user` |
| App.App.UseExceptionFilters | server/src/app.ts:47-49 | the error handler is appended |
| App.App.Init | server/src/app.ts:75-78 | middleware, then routes, then the exception filter last |
| JsString.Split | server/src/app.ts:53 | `split` gives at least one piece and no piece contains the separator |
| JsString.JoinSplit | server/src/app.ts:53 | joining the pieces back gives the original string |
| JsString.SplitAfterWord | server/src/common/auth.middleware.ts:10 | a separator-free word and a separator are split off as the first piece |
| JsString.SplitWord | server/src/common/auth.middleware.ts:10 | a string without the separator is one piece |
| JsString.SplitJoin | server/src/app.ts:53 | splitting a join of separator-free pieces gives the pieces back |
| JsString.TrimStart | server/src/app.ts:57 | drops exactly the leading white space |
| JsString.TrimEnd | server/src/app.ts:57 | drops exactly the trailing white space |
| JsString.TrimmedHasNoOuterSpace | server/src/app.ts:57 | a trimmed string neither starts nor ends with white space |
| JsString.TrimUnchanged | server/src/app.ts:57 | trimming a string without outer white space leaves it unchanged |
| JsString.Show | server/src/app.ts:39 | a number's decimal rendering is a non-empty run of digits |
| JsString.ShowValue | server/src/app.ts:39 | reading a rendering back gives the number |
| JsString.ToNumberShow | server/src/app.ts:39 | unary `+` reads any decimal rendering back as its number |
| Json.PutGet | server/src/common/validate.middleware.ts:18 | after `obj[key] = v`, `key` reads `v`, every other key reads as before, and the key set grows by `key` only |
| Json.PutKeys | server/src/common/validate.middleware.ts:21 | writing an existing key keeps the key order; a new key is appended |
| Json.PutDistinct | server/src/common/validate.middleware.ts:18-21 | writing into an object never makes a key occur twice |

## Left out

- Logging: every `logger` call is left out, and so are the log lines `bindRoutes` writes.
- Timestamps: Mongoose's `createdAt`/`updatedAt` are not kept.
- Ids: `shortid` generation is a `newId` parameter.
- Startup I/O: `mongooseService.connect`, `app.listen` and the startup log in `init` are left out. `passport.initialize` is a layer without behaviour here.
- JSON body parser: `express.json()` passes a malformed or oversized body to `next(err)`, which the exception filter then answers. That rejection is not modelled; every request reaches the routes with a parsed JSON object as its body.
- Google redirect: the `/google` handler only hands the request to passport (a redirect to Google), and passport is not part of this model.
- Google registration: `setupGoogleAuth`'s strategy registration and the OAuth exchange are left out. The strategy's verify callback is modelled as `GoogleCallback`, and its outcome reaches the controller as a parameter.
- GoogleLogin: modelled, but no route calls it.
- UserService.UserService.GetCurrentUser: an undefined email (an auth user whose token carries no `email` claim) is modelled as Mongoose dropping the undefined key from the filter, so `findOne({ email: undefined })` matches every document and returns the first one. This is an assumption about Mongoose's query casting, whose source is not part of this model.
- UserService.UserService.GoogleCallback: a Google profile without an email is modelled under the same Mongoose assumption, so the callback finds the first document of the collection and logs in as that user instead of creating one.
- UserService.UserService.GoogleLogin: an undefined email is modelled under the same Mongoose assumption and answers with the first document; it is a 404 only on an empty collection.
- Signing failure: `signJWT`'s rejection on a signing error is left out; `sign` is a total function.
- Unset secret: an unset `SECRET` is passed to the `sign` and `verify` parameters, which decide the outcome.
- JWT checks: signature and expiry checking belong to `jsonwebtoken`; `VerifiesOwnTokens` is the only property assumed of it. Time is not modelled, so every token is assumed to be within its expiry, including the one-hour reset token that ResetTokenIsBearer is about.
- bcrypt: hashing is idealised. A hash accepts exactly its own password, and salts and timing are not modelled.
- E-mail syntax: the `isEmail` test of class-validator is a parameter.
- class-transformer: `plainToInstance`'s conversions are left out; the validators read the JSON body directly.
- JsString.ToNumber: covers trimmed, optionally signed decimal integers and the empty string. Hexadecimal, exponent and fractional forms read as not a number.
- Pagination.GetPaginationData: requires `limit > 0`. A zero or negative limit gives `Infinity`/`NaN` page counts in JavaScript, which are not modelled.
- Error texts: `ValidationError` messages use Mongoose's wording, one message per failing path in path order. The duplicate-key message is shortened to `E11000 duplicate key error`.
- Http.ReadOfUndefined: uses V8's wording for a property read on `undefined` (`req.authUser.email` in `currentUser`, `.role` in the role guard).
- Http.DestructureOfUndefined: the `authUser: { _id }` pattern of `updateUser` and `updatePassword` is modelled with V8's destructuring wording for an ES2015+ target, "Cannot destructure property '_id' of 'req.authUser' as it is undefined."; another engine or compile target words it differently.
- HandleRequest.HandleRequest: the message of the 500 error is `String(e)`. This assumes `HTTPError` extends `Error` and passes its message to `super()`; `server/src/errors/http-error.ts` is not part of this model.
- Dto.Violations: the message order within one property follows class-validator's registration order, which is bottom-up because TypeScript applies property decorators bottom-up. So a register password that is missing gives `['min length 6', 'pass']`. class-validator's own source is not part of this model.
- Dto.Violations: `MinLength` counts every character of the string. validator.js's `isLength`, which class-validator's `@MinLength` calls, does not count the variation selectors U+FE0E and U+FE0F, so a string padded with them can pass here and fail in the source.
- Json.Get: with duplicate keys it returns the first, while `JSON.parse` keeps the last. The DTO property names never repeat, so the difference cannot arise.
- Json.PutKeys: a new key is appended at the end. A JavaScript object orders integer-like keys first and treats `__proto__` specially; the DTO property names are neither.
- Null results: the `!user` / `!data` branches of the handlers cannot be reached, because the service either returns a document or throws. They are not modelled.
- UserController.UserController.GoogleAuthCallback: the `HTTPError` thrown inside passport's callback escapes `handleRequest` as an unhandled rejection and is modelled as `Stall`. The redirect is recorded with its location only.
- Null provider: a `null` provider in a register body counts as absent. A `null` stored by Mongoose is not distinguished from the default.
- Express 404: when no route answers, Express's own 404 is outside the core; `Respond` gives `None`.
- CORS headers: the `cors` package's response headers are not modelled, only its origin decision.
- Concurrency: each request runs to completion before the next. `Promise.all` in `createUser` is sequential here. Races between two requests on the unique index are not modelled.

## Findings

| source | as written | input that shows it | evidently intended | confidence | as-written member | corrected member |
|---|---|---|---|---|---|---|
| server/src/utils/sort.ts:11-12 | `sortOptions[sort] ?? sortOptions.created_desc` also finds the members every object inherits from `Object.prototype`, so the fallback does not apply to them | `sort = "constructor"` yields the `Object` constructor function (and `"__proto__"` yields `Object.prototype`) instead of a sort order | only `created_desc` and `created_asc` select an order, and every other value falls back to newest first | not executed | Sort.InheritedNameEscapesFallback | Sort.GetSortCriteria |
