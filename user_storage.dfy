/**
 * The user table (storage/user.go). GetUser builds its query one WHERE
 * clause at a time, adding a clause only for a non-empty filter field, and
 * takes the first row the query matches; no match is (nil, nil), not an
 * error. CreateUser inserts a row and hands back the row it inserted.
 */
module UserStorage {
  import opened Wrappers
  import opened Entity
  import opened Errs

  /** GetUserFilter: an empty field places no constraint. */
  datatype UserFilter = UserFilter(email: string, userId: string)

  function ByEmail(email: string): UserFilter { UserFilter(email, "") }

  function ById(userId: string): UserFilter { UserFilter("", userId) }

  /** What a filter asks of a row, field by field. */
  predicate UserMatches(f: UserFilter, u: User) {
    (f.email != "" ==> u.email == f.email) && (f.userId != "" ==> u.id == f.userId)
  }

  /** The first row of the table that the filter matches, if any. */
  function FirstUser(rows: seq<User>, f: UserFilter): (r: Option<User>)
    ensures r.Some? ==> r.value in rows && UserMatches(f, r.value)
    ensures r.None? <==> forall u :: u in rows ==> !UserMatches(f, u)
  {
    if rows == [] then None
    else if UserMatches(f, rows[0]) then Some(rows[0])
    else FirstUser(rows[1..], f)
  }

  /** A matching row preceded only by rows that do not match is the one found. */
  lemma {:induction false} FirstUserIsFirst(rows: seq<User>, f: UserFilter, k: nat)
    requires k < |rows| && UserMatches(f, rows[k])
    requires forall j :: 0 <= j < k ==> !UserMatches(f, rows[j])
    ensures FirstUser(rows, f) == Some(rows[k])
  {
    if k > 0 {
      FirstUserIsFirst(rows[1..], f, k - 1);
    }
  }

  /** A filter with both fields empty is no filter: it finds the first row of the table. */
  lemma EmptyUserFilterFindsFirstRow(rows: seq<User>)
    requires rows != []
    ensures FirstUser(rows, UserFilter("", "")) == Some(rows[0])
  {
  }

  /** One WHERE clause of the query GetUser builds. */
  datatype UserClause = EmailIs(email: string) | IdIs(id: string)

  predicate Holds(c: UserClause, u: User) {
    match c
    case EmailIs(e) => u.email == e
    case IdIs(i) => u.id == i
  }

  predicate SatisfiesAll(u: User, stmt: seq<UserClause>) {
    forall c :: c in stmt ==> Holds(c, u)
  }

  /**
   * The row a create stores: the primary key defaults to a generated UUID,
   * `newId`, when the caller left it empty.
   */
  function WithDefaultId(u: User, newId: string): User {
    if u.id == "" then u.(id := newId) else u
  }

  class UserStore {
    var users: seq<User>

    constructor (users: seq<User>)
      ensures this.users == users
    {
      this.users := users;
    }

    /** GetUser: (first match, nil), (nil, nil) when nothing matches, or (nil, driver error). */
    method GetUser(filter: UserFilter, fault: Fault) returns (user: Option<User>, err: Option<Error>)
      ensures fault.Some? ==> user.None? && err == Some(DriverError(fault.value))
      ensures fault.None? ==> err.None? && user == FirstUser(users, filter)
      ensures user.Some? ==> user.value in users && UserMatches(filter, user.value)
      ensures err.None? && user.None? ==> forall u :: u in users ==> !UserMatches(filter, u)
    {
      var stmt: seq<UserClause> := [];
      if filter.email != "" {
        stmt := stmt + [EmailIs(filter.email)];
      }
      if filter.userId != "" {
        stmt := stmt + [IdIs(filter.userId)];
      }
      assert forall u :: SatisfiesAll(u, stmt) <==> UserMatches(filter, u) by {
        forall u ensures SatisfiesAll(u, stmt) <==> UserMatches(filter, u) {
          if UserMatches(filter, u) {
            assert forall c :: c in stmt ==> Holds(c, u);
          }
          if SatisfiesAll(u, stmt) && filter.email != "" {
            assert Holds(EmailIs(filter.email), u);
          }
          if SatisfiesAll(u, stmt) && filter.userId != "" {
            assert Holds(IdIs(filter.userId), u);
          }
        }
      }
      if fault.Some? {
        return None, Some(DriverError(fault.value));
      }
      var i := 0;
      while i < |users| && !SatisfiesAll(users[i], stmt)
        invariant i <= |users|
        invariant FirstUser(users[i..], filter) == FirstUser(users, filter)
      {
        assert users[i..][1..] == users[i + 1..];
        i := i + 1;
      }
      if i == |users| {
        return None, None;
      }
      return Some(users[i]), None;
    }

    /** CreateUser: (the inserted row, nil) or (nil, driver error) with the table unchanged. */
    method CreateUser(user: User, newId: string, fault: Fault) returns (r: Result<User>)
      modifies this
      ensures fault.Some? ==> r == Err(DriverError(fault.value)) && users == old(users)
      ensures fault.None? ==> r == Ok(WithDefaultId(user, newId)) && users == old(users) + [r.value]
    {
      if fault.Some? {
        return Err(DriverError(fault.value));
      }
      var row := WithDefaultId(user, newId);
      users := users + [row];
      return Ok(row);
    }
  }
}
