/**
 * The service package's shared declarations (service/services.go): the
 * expected errors with their codes, the options the services take, the
 * output records they return (each a projection of a stored entity), and
 * the two collaborators whose code is not part of this model, the password
 * hasher and the token authenticator.
 */
module ServiceTypes {
  import opened Wrappers
  import opened Entity
  import opened Errs

  // ---- Expected errors ------------------------------------------------------

  const ErrSignUpUserAlreadyCreated: Error := Expected("user already created", "user_already_created")
  const ErrSignInUserNotFound: Error := Expected("user not found", "user_not_found")
  const ErrSignInWrongPassword: Error := Expected("wrong password", "wrong_password")
  const ErrCreateAccountUserNotFound: Error := Expected("user not found", "user_not_found")
  const ErrGetAccountAccountNotFound: Error := Expected("account not found", "account_not_found")

  /** The code an expected error carries; errs.GetCode. */
  function CodeOf(e: Error): (code: string)
    requires IsExpected(e)
  {
    e.code
  }

  /** Every error the services raise with errs.New is expected, with the code listed beside it. */
  lemma ExpectedErrorCodes()
    ensures IsExpected(ErrSignUpUserAlreadyCreated) && CodeOf(ErrSignUpUserAlreadyCreated) == "user_already_created"
    ensures IsExpected(ErrSignInUserNotFound) && CodeOf(ErrSignInUserNotFound) == "user_not_found"
    ensures IsExpected(ErrSignInWrongPassword) && CodeOf(ErrSignInWrongPassword) == "wrong_password"
    ensures IsExpected(ErrCreateAccountUserNotFound) && CodeOf(ErrCreateAccountUserNotFound) == "user_not_found"
    ensures IsExpected(ErrGetAccountAccountNotFound) && CodeOf(ErrGetAccountAccountNotFound) == "account_not_found"
  {
  }

  // ---- Options ----------------------------------------------------------------

  datatype SignInOptions = SignInOptions(email: string, password: string)

  /** `userType` is the Go field Type; `macAddress` is carried but no operation reads it. */
  datatype SignUpOptions = SignUpOptions(
    username: string,
    email: string,
    password: string,
    userType: int,
    macAddress: string)
  {
    /**
     * SignUpOptions.Validate: the type must be 1 (student) or 2 (teacher).
     * Nothing in the services calls it.
     */
    function Validate(): (err: Option<Error>)
      ensures err.None? <==> userType == Student || userType == Teacher
      ensures err.Some? ==> IsExpected(err.value) && CodeOf(err.value) == "wrong user type"
    {
      if userType > 2 || userType < 1 then
        Some(Expected("Type must be either 1 or 2, which means student or teacher.", "wrong user type"))
      else
        None
    }
  }

  datatype VerifyTokenOptions = VerifyTokenOptions(accessToken: string)

  datatype CreateAccountOptions = CreateAccountOptions(
    userId: string,
    deviceName: string,
    deviceOS: string,
    deviceMacAddress: string,
    active: bool,
    accountLanguage: string)

  datatype GetAccountOptions = GetAccountOptions(accountId: string, userId: string)

  datatype UploadCourseOptions = UploadCourseOptions(
    author: string,
    name: string,
    description: string,
    price: Float32,
    courseLanguage: string)

  // ---- Outputs: what each service hands back of the stored entity ----------

  datatype SignInOutput = SignInOutput(accessToken: string)

  datatype SignUpOutput = SignUpOutput(id: string, username: string, email: string, userType: int, accessToken: string)

  datatype VerifyTokenOutput = VerifyTokenOutput(username: string, userId: string)

  datatype CreateAccountOutput = CreateAccountOutput(id: string, userId: string)

  datatype CreateCourseOutput = CreateCourseOutput(id: string, name: string, author: string)

  /** The reply to a sign-up: the stored user's public fields, never its password hash, and the token. */
  function SignUpOutputOf(u: User, token: string): SignUpOutput {
    SignUpOutput(u.id, u.username, u.email, u.userType, token)
  }

  /** The reply to a created account: its Id and owner, nothing of its devices or settings. */
  function CreateAccountOutputOf(a: Account): CreateAccountOutput {
    CreateAccountOutput(a.id, a.userId)
  }

  /** The reply to an uploaded course: its Id, Name and Author, never its price or teacher. */
  function CreateCourseOutputOf(c: Course): CreateCourseOutput {
    CreateCourseOutput(c.id, c.name, c.author)
  }

  /** Two accounts that share Id and owner give the same reply, whatever their devices and settings. */
  lemma CreateAccountOutputProjects(a: Account, b: Account)
    requires a.id == b.id && a.userId == b.userId
    ensures CreateAccountOutputOf(a) == CreateAccountOutputOf(b)
  {
  }

  /** Two courses that share Id, Name and Author give the same reply, whatever their price and teacher. */
  lemma CreateCourseOutputProjects(c: Course, d: Course)
    requires c.id == d.id && c.name == d.name && c.author == d.author
    ensures CreateCourseOutputOf(c) == CreateCourseOutputOf(d)
  {
  }

  // ---- Collaborators not part of this model -------------------------------

  /** The claims a token carries (auth.GenerateTokenClaimsOptions and the parsed claims). */
  datatype Claims = Claims(userName: string, userId: string)

  /**
   * hash.Hash: GenerateHash(password) gives the hash or an error;
   * CompareHash(hash, password) gives nil (None) when they match.
   */
  datatype Hasher = Hasher(
    generateHash: string -> Result<string>,
    compareHash: (string, string) -> Option<Error>)

  /** auth.Authenticator: GenerateToken signs claims, ParseToken checks a token and gives its claims. */
  datatype Authenticator = Authenticator(
    generateToken: Claims -> Result<string>,
    parseToken: string -> Result<Claims>)

  /** The token round trip an authenticator is expected to satisfy (signature and expiry aside). */
  ghost predicate RoundTrips(a: Authenticator) {
    forall c: Claims :: a.generateToken(c).Ok? ==> a.parseToken(a.generateToken(c).value) == Ok(c)
  }

  /** The claims issued for a stored user. */
  function ClaimsOf(u: User): Claims {
    Claims(u.username, u.id)
  }
}
