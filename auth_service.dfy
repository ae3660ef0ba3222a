/**
 * The authentication service (service/auth.go): sign-up, sign-in and token
 * verification over the user table, the password hasher and the token
 * authenticator.
 */
module Auth {
  import opened Wrappers
  import opened Entity
  import opened Errs
  import opened ServiceTypes
  import opened UserStorage

  /** No two users share an email: what SignUp's existence check is there to keep. */
  ghost predicate UniqueEmails(rows: seq<User>) {
    forall i, j :: 0 <= i < j < |rows| ==> rows[i].email != rows[j].email
  }

  /**
   * A row added after the email lookup found nothing keeps emails unique.
   * An empty email is no exception: the empty filter matches every row, so
   * the lookup finds nothing only in an empty table.
   */
  lemma SignUpKeepsEmailsUnique(rows: seq<User>, u: User)
    requires UniqueEmails(rows)
    requires FirstUser(rows, ByEmail(u.email)).None?
    ensures UniqueEmails(rows + [u])
  {
    var all := rows + [u];
    forall i, j | 0 <= i < j < |all| ensures all[i].email != all[j].email {
      if j == |rows| {
        assert rows[i] in rows;
        assert !UserMatches(ByEmail(u.email), rows[i]);
      }
    }
  }

  /** The record SignUp hands to CreateUser: the options' fields and the password's hash. */
  function Registrant(options: SignUpOptions, passwordHash: string): User {
    User("", options.username, options.email, options.userType, passwordHash)
  }

  /** The wrapped error SignIn and SignUp return when the user lookup fails. */
  function LookupFailed(fault: string): Error {
    Incidental("failed to get user", Some(DriverError(fault)))
  }

  class AuthService {
    const users: UserStore
    const hasher: Hasher
    const auth: Authenticator

    constructor (users: UserStore, hasher: Hasher, auth: Authenticator)
      ensures this.users == users && this.hasher == hasher && this.auth == auth
    {
      this.users := users;
      this.hasher := hasher;
      this.auth := auth;
    }

    /**
     * What SignIn returns for the user the email lookup found (None: none).
     * An unknown user and a wrong password are told apart; a token is issued
     * only after the password matched.
     */
    function SignInResult(found: Option<User>, password: string): (r: Result<SignInOutput>)
      ensures found.None? ==> r == Err(ErrSignInUserNotFound)
      ensures found.Some? && hasher.compareHash(found.value.password, password).Some? ==> r == Err(ErrSignInWrongPassword)
      ensures r.Ok? ==> found.Some? && hasher.compareHash(found.value.password, password).None?
                        && auth.generateToken(ClaimsOf(found.value)) == Ok(r.value.accessToken)
      ensures r.Err? && !IsExpected(r.error) ==> r.error.message == "failed to generate token for user"
    {
      match found
      case None => Err(ErrSignInUserNotFound)
      case Some(u) =>
        if hasher.compareHash(u.password, password).Some? then Err(ErrSignInWrongPassword)
        else match auth.generateToken(ClaimsOf(u))
          case Err(e) => Err(Incidental("failed to generate token for user", Some(e)))
          case Ok(token) => Ok(SignInOutput(token))
    }

    /** SignIn reads the user table and never writes it (it has no modifies clause). */
    method SignIn(options: SignInOptions, fault: Fault) returns (r: Result<SignInOutput>)
      ensures fault.Some? ==> r == Err(LookupFailed(fault.value))
      ensures fault.None? ==> r == SignInResult(FirstUser(users.users, ByEmail(options.email)), options.password)
      ensures r == Err(ErrSignInUserNotFound)
              <==> fault.None? && forall u :: u in users.users ==> !UserMatches(ByEmail(options.email), u)
      ensures r.Ok? ==> exists u :: u in users.users && UserMatches(ByEmail(options.email), u)
                                   && auth.generateToken(ClaimsOf(u)) == Ok(r.value.accessToken)
    {
      var user, err := users.GetUser(ByEmail(options.email), fault);
      if err.Some? {
        return Err(Incidental("failed to get user", err));
      }
      if user.None? {
        return Err(ErrSignInUserNotFound);
      }
      var u := user.value;
      if hasher.compareHash(u.password, options.password).Some? {
        return Err(ErrSignInWrongPassword);
      }
      var token := auth.generateToken(ClaimsOf(u));
      if token.Err? {
        return Err(Incidental("failed to generate token for user", Some(token.error)));
      }
      return Ok(SignInOutput(token.value));
    }

    /**
     * SignUp: refuse an email already registered, store the hash of the
     * password (never the password) with the options' email, username and
     * type, then issue a token for the stored user. The type is not
     * validated. A token failure comes after the insert: the user stays.
     */
    method SignUp(options: SignUpOptions, newId: string, lookupFault: Fault, insertFault: Fault)
      returns (r: Result<SignUpOutput>)
      modifies users
      ensures lookupFault.Some? ==> r == Err(LookupFailed(lookupFault.value)) && users.users == old(users.users)
      ensures lookupFault.None? && FirstUser(old(users.users), ByEmail(options.email)).Some? ==>
                r == Err(ErrSignUpUserAlreadyCreated) && users.users == old(users.users)
      ensures lookupFault.None? && FirstUser(old(users.users), ByEmail(options.email)).None? ==>
                match hasher.generateHash(options.password)
                case Err(e) =>
                  r == Err(Incidental("failed to hash user", Some(e))) && users.users == old(users.users)
                case Ok(hash) =>
                  if insertFault.Some? then
                    r == Err(Incidental("failed to create user", Some(DriverError(insertFault.value))))
                    && users.users == old(users.users)
                  else
                    var row := WithDefaultId(Registrant(options, hash), newId);
                    users.users == old(users.users) + [row]
                    && row.password == hash && row.id == newId
                    && r == match auth.generateToken(ClaimsOf(row))
                            case Err(e) => Err(Incidental("failed to generate token for user", Some(e)))
                            case Ok(token) => Ok(SignUpOutputOf(row, token))
      ensures UniqueEmails(old(users.users)) ==> UniqueEmails(users.users)
    {
      var existing, err := users.GetUser(ByEmail(options.email), lookupFault);
      if err.Some? {
        return Err(Incidental("failed to get user", err));
      }
      if existing.Some? {
        return Err(ErrSignUpUserAlreadyCreated);
      }
      var hash := hasher.generateHash(options.password);
      if hash.Err? {
        return Err(Incidental("failed to hash user", Some(hash.error)));
      }
      ghost var before := users.users;
      var created := users.CreateUser(Registrant(options, hash.value), newId, insertFault);
      if created.Err? {
        return Err(Incidental("failed to create user", Some(created.error)));
      }
      if UniqueEmails(before) {
        SignUpKeepsEmailsUnique(before, created.value);
      }
      var token := auth.generateToken(ClaimsOf(created.value));
      if token.Err? {
        return Err(Incidental("failed to generate token for user", Some(token.error)));
      }
      return Ok(SignUpOutputOf(created.value, token.value));
    }

    /** VerifyToken: "invalid token" when the token does not parse, else the claims' name and id. */
    function VerifyToken(options: VerifyTokenOptions): (r: Result<VerifyTokenOutput>)
      ensures r.Ok? <==> auth.parseToken(options.accessToken).Ok?
      ensures r.Err? ==> !IsExpected(r.error) && r.error.message == "invalid token"
      ensures r.Ok? ==>
                var claims := auth.parseToken(options.accessToken).value;
                r.value == VerifyTokenOutput(claims.userName, claims.userId)
    {
      match auth.parseToken(options.accessToken)
      case Err(_) => Err(Incidental("invalid token", None))
      case Ok(claims) => Ok(VerifyTokenOutput(claims.userName, claims.userId))
    }

    /**
     * A token SignIn or SignUp issued for a user verifies back to that user's
     * name and id, for an authenticator whose tokens round-trip.
     */
    lemma IssuedTokenVerifies(u: User, token: string)
      requires RoundTrips(auth)
      requires auth.generateToken(ClaimsOf(u)) == Ok(token)
      ensures VerifyToken(VerifyTokenOptions(token)) == Ok(VerifyTokenOutput(u.username, u.id))
    {
      assert auth.generateToken(ClaimsOf(u)).Ok?;
    }
  }
}
