/**
 * The account service (service/account.go): create an account for an
 * existing user, read an account by (account id, owner id), and pass an
 * updated account on to storage.
 */
module Accounts {
  import opened Wrappers
  import opened Entity
  import opened Errs
  import opened ServiceTypes
  import opened UserStorage
  import opened AccountStorage

  /** The account CreateAccount builds for `owner`: one device and the settings, from the options. */
  function NewAccount(owner: User, options: CreateAccountOptions): Account {
    Account(
      "",
      owner.id,
      [Device(options.deviceName, options.deviceOS, options.deviceMacAddress, options.active)],
      Some(Settings(options.accountLanguage)))
  }

  /**
   * What CreateAccount returns, given the user table. Only an existing user
   * gets an account, and the reply names the new account and its owner.
   */
  function CreateAccountResult(userRows: seq<User>, options: CreateAccountOptions, newId: string,
                               lookupFault: Fault, insertFault: Fault): (r: Result<CreateAccountOutput>)
    ensures r == Err(ErrCreateAccountUserNotFound)
            <==> lookupFault.None? && forall u :: u in userRows ==> !UserMatches(ById(options.userId), u)
    ensures r.Ok? ==> lookupFault.None? && insertFault.None? && r.value.id == newId
                      && exists u :: u in userRows && UserMatches(ById(options.userId), u) && r.value.userId == u.id
    ensures r.Ok? ==> FirstUser(userRows, ById(options.userId)).Some?
                      && r.value.userId == FirstUser(userRows, ById(options.userId)).value.id
    ensures r.Err? && r.error != ErrCreateAccountUserNotFound ==> !IsExpected(r.error)
  {
    if lookupFault.Some? then Err(Incidental("failed to get user", Some(DriverError(lookupFault.value))))
    else match FirstUser(userRows, ById(options.userId))
      case None => Err(ErrCreateAccountUserNotFound)
      case Some(owner) =>
        if insertFault.Some? then Err(Incidental("failed to create account", Some(DriverError(insertFault.value))))
        else Ok(CreateAccountOutputOf(AccountStorage.WithDefaultId(NewAccount(owner, options), newId)))
  }

  /**
   * What GetAccount returns, given the account table. The lookup is keyed by
   * both ids, so an account is handed back only to its owner; any other
   * caller is told it does not exist.
   */
  function GetAccountResult(accountRows: seq<Account>, options: GetAccountOptions, fault: Fault): (r: Result<Account>)
    ensures r.Ok? ==> r.value in accountRows && AccountMatches(AccountFilter(options.accountId, options.userId), r.value)
    ensures r == Err(ErrGetAccountAccountNotFound)
            <==> fault.None? && forall a :: a in accountRows ==> !AccountMatches(AccountFilter(options.accountId, options.userId), a)
    ensures fault.None? && options.accountId != "" && options.userId != ""
            && (forall a :: a in accountRows && a.id == options.accountId ==> a.userId != options.userId)
            ==> r == Err(ErrGetAccountAccountNotFound)
    ensures r.Err? && r.error != ErrGetAccountAccountNotFound ==> !IsExpected(r.error)
  {
    if fault.Some? then Err(Incidental("failed to get account", Some(DriverError(fault.value))))
    else match FirstAccount(accountRows, AccountFilter(options.accountId, options.userId))
      case None => Err(ErrGetAccountAccountNotFound)
      case Some(a) => Ok(a)
  }

  /** What UpdateAccount returns: the account as given, or the wrapped storage failure. */
  function UpdateAccountResult(account: Account, fault: Fault): (r: Result<Account>)
    ensures r.Ok? <==> fault.None?
    ensures r.Ok? ==> r.value == account
    ensures r.Err? ==> !IsExpected(r.error) && r.error.cause == Some(DriverError(fault.value))
  {
    if fault.Some? then Err(Incidental("failed to update account", Some(DriverError(fault.value))))
    else Ok(account)
  }

  class AccountService {
    const users: UserStore
    const accounts: AccountStore

    constructor (users: UserStore, accounts: AccountStore)
      ensures this.users == users && this.accounts == accounts
    {
      this.users := users;
      this.accounts := accounts;
    }

    /** CreateAccount: an account is added exactly when the call succeeds, owned by the looked-up user. */
    method CreateAccount(options: CreateAccountOptions, newId: string, lookupFault: Fault, insertFault: Fault)
      returns (r: Result<CreateAccountOutput>)
      modifies accounts
      ensures r == CreateAccountResult(users.users, options, newId, lookupFault, insertFault)
      ensures r.Ok? ==>
                var owner := FirstUser(users.users, ById(options.userId));
                owner.Some?
                && accounts.accounts == old(accounts.accounts) + [AccountStorage.WithDefaultId(NewAccount(owner.value, options), newId)]
      ensures r.Err? ==> accounts.accounts == old(accounts.accounts)
    {
      var user, err := users.GetUser(ById(options.userId), lookupFault);
      if err.Some? {
        return Err(Incidental("failed to get user", err));
      }
      if user.None? {
        return Err(ErrCreateAccountUserNotFound);
      }
      var created := accounts.CreateAccount(NewAccount(user.value, options), newId, insertFault);
      if created.Err? {
        return Err(Incidental("failed to create account", Some(created.error)));
      }
      return Ok(CreateAccountOutputOf(created.value));
    }

    /** GetAccount reads the account table only. */
    method GetAccount(options: GetAccountOptions, fault: Fault) returns (r: Result<Account>)
      ensures r == GetAccountResult(accounts.accounts, options, fault)
    {
      var account, err := accounts.GetAccount(AccountFilter(options.accountId, options.userId), fault);
      if err.Some? {
        return Err(Incidental("failed to get account", err));
      }
      if account.None? {
        return Err(ErrGetAccountAccountNotFound);
      }
      return Ok(account.value);
    }

    /** UpdateAccount hands the account to storage as it is; it checks no ownership. */
    method UpdateAccount(account: Account, fault: Fault) returns (r: Result<Account>)
      modifies accounts
      ensures r == UpdateAccountResult(account, fault)
      ensures accounts.accounts == if r.Ok? then Replaced(old(accounts.accounts), account) else old(accounts.accounts)
    {
      var updated := accounts.UpdateAccount(account, fault);
      if updated.Err? {
        return Err(Incidental("failed to update account", Some(updated.error)));
      }
      return Ok(updated.value);
    }
  }
}
