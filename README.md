# Course platform API: service rules and request handlers

This project models the core of the course platform's `application-api`:
the storage lookups over the user, course and account tables, the service
layer's business rules (sign-up, sign-in, token verification, account
creation and lookup, course upload and listing), and the HTTP handlers that
check a request, call a service and turn its result into a reply.

- The tables are classes (`UserStore`, `CourseStore`, `AccountStore`) holding
  a `seq` of rows. A lookup builds its query one WHERE clause per non-empty
  filter field and returns the first matching row in table order; no match
  is `(None, None)`, Go's `(nil, nil)`, not an error.
- The services are classes holding references to the tables they use. Each
  operation's outcome is a function of the tables and its inputs
  (`CreateAccountResult`, `UploadCourseResult`, ...); the method is proved
  to return it and to change the tables exactly as stated.
- Errors are `Expected(message, code)` (built with `errs.New`, safe to show)
  or `Incidental(message, cause)` (built with `fmt.Errorf` or reported by the
  database driver). The handlers' classification (`Classify`, `Fetched`)
  decides Client or Server from that distinction alone.
- Everything the code calls but does not show is a parameter: the
  database driver's failure on each call (`Fault`), the UUID the database
  generates for a new row (`newId`), the password hasher and token
  authenticator (records of functions), `uuid.Parse` (`isUuid`, assumed only
  to reject `""`), and request binding (the bound body, or its error).

Where the code departs from what its names and messages suggest, the model
follows the code:

- No service calls `Validate`; `SignUp` itself does not validate the user type.
- A duplicate `(name, author)` or a non-teacher caller makes `UploadCourse`
  return an `fmt.Errorf` error, so `uploadCourse` answers with the generic
  Server error "failed to create course", not a Client conflict.
- Account ownership is enforced only by the lookup key: `GetAccount` reads by
  `(accountId, callerId)`, so another user's account reads as
  "account not found". `UpdateAccount` checks nothing itself.
- The update target of `updateAccount` is whatever `Id` the bound body
  carries. The body is bound over the caller's own account, but it may name
  another account's `Id` and any `UserId`, and that row is then rewritten:
  the read is keyed by the caller, the write is not.
  `UpdateCanRewriteAnotherUsersAccount` shows a caller rewriting an account
  owned by someone else.
- `createAccount` takes the owner from the request body and never consults
  the caller's identity.
- In `getAccount` and `updateAccount` a `GetAccount` error that is not
  expected is not handled: `getAccount` answers success with no account, and
  `updateAccount` binds the body over a nil account and updates with it.
- Empty filter fields are ignored, so an empty email at sign-in or sign-up
  matches the first user, a create-account body without a `userId` gives
  the new account to the first user in the table, and an upload with an
  empty name is refused when its author already has any course.
- The by-id course lookup sets an `Id` filter field, but the filter declared
  in service/storages.go:52-55 has no `Id` field. The model gives the course filter an `Id` field that,
  like the others, applies only when non-empty. If it always applied, the
  upload's duplicate check (which leaves `Id` empty) would never match.

## Model

| member | source | states |
|---|---|---|
| `ServiceTypes.ExpectedErrorCodes` | application-api/internal/service/services.go:77-114 | the sign-up, sign-in and account errors are expected errors carrying the codes user_already_created, user_not_found, wrong_password, user_not_found and account_not_found |
| `ServiceTypes.SignUpOptions.Validate` | application-api/internal/service/auth.go:130-136 | succeeds exactly when the type is 1 or 2; otherwise fails with an expected error coded "wrong user type" |
| `ServiceTypes.CreateAccountOutputProjects` | application-api/internal/service/services.go:101-104 | the create-account reply depends only on the account's Id and UserId |
| `ServiceTypes.CreateCourseOutputProjects` | application-api/internal/service/services.go:144-148 | the upload reply depends only on the course's Id, Name and Author, never its price or teacher |
| `UserStorage.FirstUser` | application-api/internal/storage/user.go:30-53 | a user found satisfies every non-empty filter field and is in the table; nothing is found exactly when no user matches |
| `UserStorage.FirstUserIsFirst` | application-api/internal/storage/user.go:41-45 | the user found is the first matching row in table order |
| `UserStorage.EmptyUserFilterFindsFirstRow` | application-api/internal/storage/user.go:33-39 | a filter whose fields are all empty places no constraint and finds the first user |
| `UserStorage.UserStore.GetUser` | application-api/internal/storage/user.go:30-54 | builds a clause only per non-empty field; returns the first match, (nil, nil) when none matches, (nil, err) on a driver failure |
| `UserStorage.UserStore.CreateUser` | application-api/internal/storage/user.go:21-28 | on success appends the row and returns that same row, with a generated id when none was given; on failure returns the error and leaves the table as it was |
| `CourseStorage.FirstCourse` | application-api/internal/storage/course.go:32-55 | a course found satisfies every non-empty filter field and is in the table; nothing is found exactly when no course matches |
| `CourseStorage.FirstCourseIsFirst` | application-api/internal/storage/course.go:43-47 | the course found is the first matching row in table order |
| `CourseStorage.CourseStore.GetCourse` | application-api/internal/storage/course.go:32-56 | builds a clause only per non-empty field; returns the first match, (nil, nil) when none matches, (nil, err) on a driver failure |
| `CourseStorage.CourseStore.CreateCourse` | application-api/internal/storage/course.go:22-30 | on success appends the row and returns that same row; on failure returns the error and leaves the table as it was |
| `CourseStorage.TaughtBy` | application-api/internal/service/course.go:91 | the listed courses are exactly the table's courses whose TeacherId is the given id |
| `CourseStorage.TaughtByCounts` | application-api/internal/service/course.go:91 | each of the teacher's courses is listed as often as the table holds it, and no other course is listed |
| `CourseStorage.TaughtByKeepsOrder` | application-api/internal/service/course.go:91 | the listing keeps table order: listing two stretches of the table in turn gives the listing of the whole |
| `CourseStorage.CourseStore.GetListByTeacherId` | application-api/internal/service/course.go:91 | returns exactly the teacher's courses, or the driver's error |
| `CourseStorage.CourseStore.GetList` | application-api/internal/service/course.go:100 | returns the whole course table, or the driver's error |
| `AccountStorage.FirstAccount` | application-api/internal/service/storages.go:31-39 | an account found satisfies every non-empty filter field; nothing is found exactly when no account matches |
| `AccountStorage.Replaced` | application-api/internal/service/storages.go:33 | an update rewrites the rows holding the account's Id and leaves every other row as it was |
| `AccountStorage.AccountStore.GetAccount` | application-api/internal/service/storages.go:31 | returns the first account matching the filter, (nil, nil) when none does, or the driver's error |
| `AccountStorage.AccountStore.CreateAccount` | application-api/internal/service/storages.go:29 | on success appends the account with a generated id and returns it; on failure leaves the table as it was |
| `AccountStorage.AccountStore.UpdateAccount` | application-api/internal/service/storages.go:33 | on success rewrites the account's rows and returns the account; on failure leaves the table as it was |
| `Auth.SignUpKeepsEmailsUnique` | application-api/internal/service/auth.go:72-93 | adding a user after the email lookup found nothing keeps every email unique, the empty email included |
| `Auth.AuthService.SignInResult` | application-api/internal/service/auth.go:44-62 | an unknown user gives user_not_found and a hash mismatch gives wrong_password; a token is issued only after the password matched, for that user's name and id |
| `Auth.AuthService.SignIn` | application-api/internal/service/auth.go:33-64 | never writes the store; a lookup failure is a wrapped non-expected error; user_not_found exactly when no user has the email; a token only for a user with that email |
| `Auth.AuthService.SignUp` | application-api/internal/service/auth.go:66-113 | an existing email gives user_already_created and no new user; otherwise stores the hash of the password with the options' email, username and type, and echoes the stored user's fields with its token; keeps emails unique |
| `Auth.AuthService.VerifyToken` | application-api/internal/service/auth.go:115-128 | succeeds exactly when the token parses, and then returns exactly the parsed claims' username and user id; otherwise fails with the non-expected "invalid token" |
| `Auth.AuthService.IssuedTokenVerifies` | application-api/internal/service/auth.go:120-127 | a token issued for a user verifies back to that user's name and id, given an authenticator whose tokens round-trip |
| `Accounts.CreateAccountResult` | application-api/internal/service/account.go:26-68 | user_not_found exactly when no user has the id; a success names the new account's id and, as owner, the first user the by-id lookup finds (the first user of the table when the id is empty); every other error is non-expected |
| `Accounts.AccountService.CreateAccount` | application-api/internal/service/account.go:26-68 | adds one account, owned by the first user the by-id lookup finds, with one device and the settings language from the options, exactly when it succeeds |
| `Accounts.GetAccountResult` | application-api/internal/service/account.go:70-89 | a returned account matches both the account id and the caller's id; an account owned by someone else is reported as account_not_found |
| `Accounts.AccountService.GetAccount` | application-api/internal/service/account.go:70-89 | looks the account up by the pair (accountId, userId) and returns that lookup's outcome |
| `Accounts.UpdateAccountResult` | application-api/internal/service/account.go:91-106 | returns the account unchanged when storage succeeds, otherwise a wrapped non-expected error |
| `Accounts.AccountService.UpdateAccount` | application-api/internal/service/account.go:91-106 | forwards the account to storage as given, with no ownership check; the table changes only on success |
| `Courses.UploadKeepsTitlesUnique` | application-api/internal/service/course.go:31-39 | adding a course after the (name, author) lookup found nothing keeps (name, author) pairs unique |
| `Courses.EmptyNameMatchesAnyCourseOfAuthor` | application-api/internal/service/course.go:31 | with an empty name the duplicate check matches any course of the same author |
| `Courses.UploadCourseResult` | application-api/internal/service/course.go:26-72 | fails on an existing (name, author) match or a caller who is not a teacher; a success echoes the new id, name and author and means the first user the caller-id lookup finds is a teacher; no error is expected |
| `Courses.CourseService.UploadCourse` | application-api/internal/service/course.go:26-72 | adds one course, whose TeacherId is the id of the first user the caller-id lookup finds, a teacher, and whose other fields are the options', exactly when it succeeds; keeps (name, author) unique |
| `Courses.GetCourseByIdResult` | application-api/internal/service/course.go:74-80 | returns a course of the table with the requested id; fails exactly when the lookup fails or no course has that id |
| `Courses.CourseService.GetCourseById` | application-api/internal/service/course.go:74-80 | returns the outcome of the by-id lookup |
| `Courses.GetTeachersListResult` | application-api/internal/service/course.go:82-97 | returns courses only when the id resolves to a teacher, and then exactly that teacher's courses; otherwise fails |
| `Courses.CourseService.GetTeachersList` | application-api/internal/service/course.go:82-97 | returns the outcome of the teacher check and the listing |
| `Courses.GetListResult` | application-api/internal/service/course.go:99-106 | returns the course table unchanged, or a wrapped non-expected error |
| `Courses.CourseService.GetList` | application-api/internal/service/course.go:99-106 | returns the outcome of the listing |
| `HttpCommon.Classify` | application-api/internal/controller/http/account.go:75-86 | an expected error becomes a Client error with its message and code; any other error becomes a Server error with only the generic message |
| `AccountHandlers.Routes` | application-api/internal/controller/http/account.go:25-30 | all three /account routes run behind the authentication middleware |
| `AccountHandlers.Fetched` | application-api/internal/controller/http/account.go:141-151 | an expected GetAccount error becomes a Client error with message and code; any other error falls through to a success with no account |
| `AccountHandlers.AccountRouter.CreateAccount` | application-api/internal/controller/http/account.go:62-87 | a body that does not bind gives "invalid request body" and no service call; otherwise the service result classified with "failed to create account"; a success appends exactly one account, owned by the first user whose id matches the body's userId |
| `AccountHandlers.AccountRouter.GetAccount` | application-api/internal/controller/http/account.go:114-152 | rejects a non-UUID path id, a missing identity and a non-UUID identity in that order; an account returned is always the caller's own; no account only on a non-expected read failure |
| `AccountHandlers.AccountRouter.UpdateAccount` | application-api/internal/controller/http/account.go:166-219 | the same checks as getAccount; the body is bound over the account read; an update failure is the Server error "failed to update account"; on a clean read the body is bound over the caller's own account, but the row rewritten is whichever the bound body's Id names |
| `AccountHandlers.UpdateCanRewriteAnotherUsersAccount` | application-api/internal/controller/http/account.go:166-219 | with accounts a1 of u1 and a2 of u2, caller u1 updating a1 with a body naming a2 succeeds and rewrites a2, the account of u2 |
| `CourseHandlers.Routes` | application-api/internal/controller/http/course.go:52-58 | /course/new and /course/teachers_list are behind the authentication middleware; /course/list and /course/:id are public |
| `CourseHandlers.CourseRouter.UploadCourse` | application-api/internal/controller/http/course.go:62-87 | a body that does not bind gives "invalid request body" and no service call; every service failure is the Server error "failed to create course"; a success appends exactly one course taught by the first user the caller-id lookup finds, a teacher |
| `CourseHandlers.CourseRouter.GetListByTeacherId` | application-api/internal/controller/http/course.go:90-112 | a missing or empty identity gives "userId is required and must be a string"; a success lists exactly the calling teacher's courses; a service failure is the Client error "failed to get course list" |
| `CourseHandlers.CourseRouter.GetList` | application-api/internal/controller/http/course.go:115-132 | serves the whole course table, or a Client error on failure |
| `CourseHandlers.CourseRouter.GetCourseById` | application-api/internal/controller/http/course.go:134-155 | a non-UUID id gives "invalid course id parameter" before the service call; a served course has the requested id; an absent course or a failure gives "failed to get the course" |

## Left out

- Logging, the request context and the ORM's internals (SQL generation, `Preload`, which row `First` picks beyond table order) are not modelled.
- Database failures are a `Fault` parameter per storage call, and the UUID the database generates for a new row is a `newId` parameter.
- The password hasher, the token authenticator, `uuid.Parse` and JSON binding are function-valued parameters. Their code is not part of this model. Of `uuid.Parse` the model assumes only that it rejects the empty string. Token expiry and signatures are reduced to the `RoundTrips` assumption.
- The authentication middleware and the handler wrapper are not part of this model. Route protection is recorded in `Routes`, and the identity the middleware injects is a handler parameter.
- The account storage's implementation and the account entity are not modelled from code; the model gives them the user and course tables' conventions: empty filter fields ignored, first match, generated id. An update of an id that no row holds leaves the table unchanged.
- `GetListByTeacherId` and `GetList` have no implementation in storage/course.go. In the model they return the teacher's courses and the whole table, in table order.
- The check-then-create races on email and on (name, author) are not modelled: the model is sequential.
- Go panics are not reproduced. The context userId that `UploadCourse` asserts to be a string is a plain `string` parameter. `err.Error()` on a nil error cannot be reached, because a missing list or course always comes with an error in the model. Go's nil versus empty slice is not distinguished.
- The create-account and upload-course request bodies embed their options by reference, so a body such as `{}` binds without error and leaves the options nil, and the service then dereferences nil (service/account.go:32, service/course.go:31). In the model a body that binds always carries options, so this panic path is not modelled.
- Error texts produced by `fmt.Errorf` are kept only as their fixed prefix and the wrapped error. The caller id formatted into the upload and listing errors is dropped.
- The price is carried as its float32 bit pattern; nothing computes with it.
- The node service and its storage, process start-up and shutdown are outside the modelled core.
