/**
 * The account table behind the AccountStorage port (service/storages.go).
 * Its implementation is not modelled from code; the model gives it the
 * conventions of the user and course tables: an empty filter field
 * places no constraint, the first match is returned, no match is (nil, nil),
 * and a create fills in a generated primary key. An update rewrites the
 * row(s) holding the account's Id.
 */
module AccountStorage {
  import opened Wrappers
  import opened Entity
  import opened Errs

  /** GetAccountFilter. */
  datatype AccountFilter = AccountFilter(accountId: string, userId: string)

  predicate AccountMatches(f: AccountFilter, a: Account) {
    (f.accountId != "" ==> a.id == f.accountId) && (f.userId != "" ==> a.userId == f.userId)
  }

  /** The first account of the table that the filter matches, if any. */
  function FirstAccount(rows: seq<Account>, f: AccountFilter): (r: Option<Account>)
    ensures r.Some? ==> r.value in rows && AccountMatches(f, r.value)
    ensures r.None? <==> forall a :: a in rows ==> !AccountMatches(f, a)
  {
    if rows == [] then None
    else if AccountMatches(f, rows[0]) then Some(rows[0])
    else FirstAccount(rows[1..], f)
  }

  /** The table after an update with `a`: every row with a's Id becomes `a`, the others stay. */
  function Replaced(rows: seq<Account>, a: Account): (r: seq<Account>)
    ensures |r| == |rows|
    ensures forall i :: 0 <= i < |rows| ==> r[i] == (if rows[i].id == a.id then a else rows[i])
  {
    seq(|rows|, i requires 0 <= i < |rows| => if rows[i].id == a.id then a else rows[i])
  }

  /** The row a create stores: the primary key defaults to a generated UUID when left empty. */
  function WithDefaultId(a: Account, newId: string): Account {
    if a.id == "" then a.(id := newId) else a
  }

  class AccountStore {
    var accounts: seq<Account>

    constructor (accounts: seq<Account>)
      ensures this.accounts == accounts
    {
      this.accounts := accounts;
    }

    method GetAccount(filter: AccountFilter, fault: Fault) returns (account: Option<Account>, err: Option<Error>)
      ensures fault.Some? ==> account.None? && err == Some(DriverError(fault.value))
      ensures fault.None? ==> err.None? && account == FirstAccount(accounts, filter)
    {
      if fault.Some? {
        return None, Some(DriverError(fault.value));
      }
      return FirstAccount(accounts, filter), None;
    }

    method CreateAccount(account: Account, newId: string, fault: Fault) returns (r: Result<Account>)
      modifies this
      ensures fault.Some? ==> r == Err(DriverError(fault.value)) && accounts == old(accounts)
      ensures fault.None? ==> r == Ok(WithDefaultId(account, newId)) && accounts == old(accounts) + [r.value]
    {
      if fault.Some? {
        return Err(DriverError(fault.value));
      }
      var row := WithDefaultId(account, newId);
      accounts := accounts + [row];
      return Ok(row);
    }

    method UpdateAccount(account: Account, fault: Fault) returns (r: Result<Account>)
      modifies this
      ensures fault.Some? ==> r == Err(DriverError(fault.value)) && accounts == old(accounts)
      ensures fault.None? ==> r == Ok(account) && accounts == Replaced(old(accounts), account)
    {
      if fault.Some? {
        return Err(DriverError(fault.value));
      }
      accounts := Replaced(accounts, account);
      return Ok(account);
    }
  }
}
