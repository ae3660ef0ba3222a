/**
 * The /account handlers (controller/http/account.go). Each is a chain of
 * checks with early returns in front of one or two service calls. The
 * request is given as values: the path id, the userId the authentication
 * middleware put in the request context (None when absent), and the body
 * as it binds (Err when binding fails). uuid.Parse is the `isUuid` oracle,
 * of which the model assumes only that it rejects the empty string.
 */
module AccountHandlers {
  import opened Wrappers
  import opened Entity
  import opened Errs
  import opened ServiceTypes
  import opened UserStorage
  import opened AccountStorage
  import opened Accounts
  import opened HttpCommon

  /** Every /account route runs behind the authentication middleware. */
  function Routes(): (routes: seq<Route>)
    ensures |routes| == 3
    ensures forall r :: r in routes ==> r.protected
  {
    [Route("POST", "/account", true), Route("GET", "/account/:id", true), Route("PATCH", "/account/:id", true)]
  }

  /**
   * How getAccount and updateAccount read the GetAccount result: an
   * expected error becomes a Client error with its message and code; any
   * other error is not handled and falls through with a nil account.
   */
  function Fetched(r: Result<Account>): (f: Reply<Option<Account>>)
    ensures f.Failure? <==> r.Err? && IsExpected(r.error)
    ensures f.Failure? ==> f.error == HttpError(Client, r.error.message, r.error.code, None)
    ensures f.Success? && r.Ok? ==> f.body == Some(r.value)
    ensures f.Success? && r.Err? ==> f.body.None?
  {
    match r
    case Ok(a) => Success(Some(a))
    case Err(e) => if IsExpected(e) then Failure(HttpError(Client, e.message, e.code, None)) else Success(None)
  }

  class AccountRouter {
    const service: AccountService
    const isUuid: string -> bool

    /** uuid.Parse rejects the empty string. */
    predicate Valid() {
      !isUuid("")
    }

    constructor (service: AccountService, isUuid: string -> bool)
      requires !isUuid("")
      ensures this.service == service && this.isUuid == isUuid && Valid()
    {
      this.service := service;
      this.isUuid := isUuid;
    }

    /**
     * createAccount: a body that does not bind is refused before the service
     * runs; the service result is then classified. The account's owner is
     * the body's userId; the caller's own identity is not consulted.
     */
    method CreateAccount(body: Result<CreateAccountOptions>, newId: string, lookupFault: Fault, insertFault: Fault)
      returns (reply: Reply<CreateAccountOutput>)
      modifies service.accounts
      ensures body.Err? ==> reply == Failure(BodyError(body.error))
      ensures body.Ok? ==>
                reply == Classify(CreateAccountResult(service.users.users, body.value, newId, lookupFault, insertFault),
                                  "failed to create account")
      ensures reply.Failure? ==> service.accounts.accounts == old(service.accounts.accounts)
      ensures reply.Success? ==>
                var owner := FirstUser(service.users.users, ById(body.value.userId));
                owner.Some?
                && service.accounts.accounts
                   == old(service.accounts.accounts) + [AccountStorage.WithDefaultId(NewAccount(owner.value, body.value), newId)]
    {
      if body.Err? {
        return Failure(BodyError(body.error));
      }
      var created := service.CreateAccount(body.value, newId, lookupFault, insertFault);
      reply := Classify(created, "failed to create account");
    }

    /**
     * getAccount: the path id and the context's userId must be UUIDs; the
     * account is then read by both, so only the caller's own account is
     * ever returned. A GetAccount failure that is not expected falls
     * through to a success carrying no account.
     */
    method GetAccount(accountId: string, identity: Option<string>, fault: Fault) returns (reply: Reply<Option<Account>>)
      requires Valid()
      ensures !isUuid(accountId) ==> reply == Failure(ClientError("invalid account id parameter"))
      ensures isUuid(accountId) && identity.None? ==> reply == Failure(ClientError("user not found"))
      ensures isUuid(accountId) && identity.Some? && !isUuid(identity.value) ==>
                reply == Failure(ClientError("invalid user id parameter"))
      ensures isUuid(accountId) && identity.Some? && isUuid(identity.value) ==>
                reply == Fetched(GetAccountResult(service.accounts.accounts, GetAccountOptions(accountId, identity.value), fault))
      ensures reply.Success? && reply.body.Some? ==>
                identity.Some? && reply.body.value.id == accountId && reply.body.value.userId == identity.value
                && reply.body.value in service.accounts.accounts
      ensures reply.Success? && reply.body.None? ==> fault.Some?
    {
      if !isUuid(accountId) {
        return Failure(ClientError("invalid account id parameter"));
      }
      if identity.None? {
        return Failure(ClientError("user not found"));
      }
      var userId := identity.value;
      if !isUuid(userId) {
        return Failure(ClientError("invalid user id parameter"));
      }
      var account := service.GetAccount(GetAccountOptions(accountId, userId), fault);
      if account.Err? && IsExpected(account.error) {
        return Failure(HttpError(Client, account.error.message, account.error.code, None));
      }
      return Success(if account.Ok? then Some(account.value) else None);
    }

    /**
     * updateAccount: the same checks and read as getAccount, then the body is
     * bound over the account read (`bind`, Err when it does not bind) and
     * the result handed to UpdateAccount, whose failure is a Server error.
     * When the read succeeds only the caller's own account can be the
     * starting point; when it fails with an unexpected error the update
     * goes ahead from the body alone.
     */
    method UpdateAccount(accountId: string, identity: Option<string>, bind: Option<Account> -> Result<Account>,
                         readFault: Fault, writeFault: Fault)
      returns (reply: Reply<Account>)
      requires Valid()
      modifies service.accounts
      ensures !isUuid(accountId) ==> reply == Failure(ClientError("invalid account id parameter"))
      ensures isUuid(accountId) && identity.None? ==> reply == Failure(ClientError("user not found"))
      ensures isUuid(accountId) && identity.Some? && !isUuid(identity.value) ==>
                reply == Failure(ClientError("invalid user id parameter"))
      ensures isUuid(accountId) && identity.Some? && isUuid(identity.value) ==>
                var fetched := Fetched(GetAccountResult(old(service.accounts.accounts),
                                                        GetAccountOptions(accountId, identity.value), readFault));
                if fetched.Failure? then reply == Failure(fetched.error)
                else match bind(fetched.body)
                  case Err(e) => reply == Failure(BodyError(e))
                  case Ok(a) =>
                    reply == (if writeFault.None? then Success(a)
                              else Failure(HttpError(Server, "failed to update account", "",
                                                     Some(Incidental("failed to update account", Some(DriverError(writeFault.value)))))))
                    && service.accounts.accounts == (if writeFault.None? then Replaced(old(service.accounts.accounts), a)
                                                     else old(service.accounts.accounts))
      ensures reply.Failure? ==> service.accounts.accounts == old(service.accounts.accounts)
      ensures (isUuid(accountId) && identity.Some? && isUuid(identity.value) && readFault.Some?
               && bind(None).Ok? && writeFault.None?) ==> reply == Success(bind(None).value)
      ensures reply.Success? && readFault.None? ==>
                identity.Some?
                && exists owned :: owned in old(service.accounts.accounts) && owned.id == accountId
                                   && owned.userId == identity.value && bind(Some(owned)) == Ok(reply.body)
    {
      if !isUuid(accountId) {
        return Failure(ClientError("invalid account id parameter"));
      }
      if identity.None? {
        return Failure(ClientError("user not found"));
      }
      var userId := identity.value;
      if !isUuid(userId) {
        return Failure(ClientError("invalid user id parameter"));
      }
      var account := service.GetAccount(GetAccountOptions(accountId, userId), readFault);
      if account.Err? && IsExpected(account.error) {
        return Failure(HttpError(Client, account.error.message, account.error.code, None));
      }
      var bound := bind(if account.Ok? then Some(account.value) else None);
      if bound.Err? {
        return Failure(BodyError(bound.error));
      }
      var updated := service.UpdateAccount(bound.value, writeFault);
      if updated.Err? {
        return Failure(HttpError(Server, "failed to update account", "", Some(updated.error)));
      }
      return Success(updated.value);
    }
  }

  /**
   * updateAccount as written lets a caller rewrite another user's account.
   * The caller u1 reads their own account a1, but the bound body names a2,
   * which belongs to u2, and may set any UserId; the update then rewrites
   * a2. Only the read is keyed by the caller, not the write.
   */
  method UpdateCanRewriteAnotherUsersAccount() returns (reply: Reply<Account>, table: seq<Account>)
    ensures reply == Success(Account("a2", "u1", [], None))
    ensures table == [Account("a1", "u1", [], None), Account("a2", "u1", [], None)]
  {
    var mine := Account("a1", "u1", [], None);
    var theirs := Account("a2", "u2", [], None);
    var evil := Account("a2", "u1", [], None);
    var users := new UserStore([]);
    var accounts := new AccountStore([mine, theirs]);
    var service := new AccountService(users, accounts);
    var router := new AccountRouter(service, s => s != "");
    assert FirstAccount([mine, theirs], AccountFilter("a1", "u1")) == Some(mine);
    reply := router.UpdateAccount("a1", Some("u1"), _ => Ok(evil), None, None);
    table := accounts.accounts;
    assert table == Replaced([mine, theirs], evil);
  }
}
