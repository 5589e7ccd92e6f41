/**
 * The `/api/auth/login` route: a fixed credential pair, checked strictly,
 * opens an admin session by setting the `admin_token` cookie.
 */
module LoginRoute {
  import opened Wrappers
  import opened Js

  const AdminUser: string := "admin"
  const AdminPassword: string := "admin2025@"

  const SessionCookieName: string := "admin_token"
  const SessionCookieValue: string := "authenticated"
  /** 24 hours, in seconds. */
  const SessionMaxAge: nat := 24 * 60 * 60

  const MissingFieldsMessage: string := "Usuário e senha são obrigatórios"
  const WrongCredentialsMessage: string := "Usuário ou senha incorretos"
  const BadRequestMessage: string := "Erro ao processar requisição"

  /**
   * The request body as the handler sees it: not JSON at all, JSON `null`
   * (destructuring it throws), or any other value, whose `username` and
   * `password` properties may be absent (`Undefined`) or of any type.
   */
  datatype LoginRequest =
    | Malformed
    | NullBody
    | Fields(username: Val, password: Val)

  datatype Cookie = Cookie(
    name: string, value: string, httpOnly: bool, secure: bool, sameSite: string, maxAge: nat)

  datatype LoginBody = Success | Failure(error: string)

  datatype LoginResponse = LoginResponse(status: int, body: LoginBody, cookie: Option<Cookie>)

  /** The session cookie; `production` is `NODE_ENV === "production"`. */
  function SessionCookie(production: bool): (c: Cookie)
    ensures c.name == SessionCookieName && c.value == SessionCookieValue
    ensures c.httpOnly && c.secure == production && c.sameSite == "lax" && c.maxAge == 86400
  {
    Cookie(SessionCookieName, SessionCookieValue, true, production, "lax", SessionMaxAge)
  }

  /** Both fields are exactly the configured strings: no trimming, no case folding. */
  predicate Matches(username: Val, password: Val) {
    username == Str(AdminUser) && password == Str(AdminPassword)
  }

  /** The POST handler. */
  function Login(req: LoginRequest, production: bool): (r: LoginResponse)
    ensures r.status in {200, 400, 401, 500}
    ensures r.status == 500 <==> !req.Fields?
    ensures r.status == 400 <==> req.Fields? && (!Truthy(req.username) || !Truthy(req.password))
    ensures r.status == 200 <==> req.Fields? && Matches(req.username, req.password)
    ensures r.cookie.Some? <==> r.status == 200
    ensures r.cookie.Some? ==> r.cookie.value == SessionCookie(production)
    ensures r.status == 200 <==> r.body == Success
    ensures r.status == 400 ==> r.body == Failure(MissingFieldsMessage)
    ensures r.status == 401 ==> r.body == Failure(WrongCredentialsMessage)
    ensures r.status == 500 ==> r.body == Failure(BadRequestMessage)
  {
    match req
    case Malformed => LoginResponse(500, Failure(BadRequestMessage), None)
    case NullBody => LoginResponse(500, Failure(BadRequestMessage), None)
    case Fields(username, password) =>
      if !Truthy(username) || !Truthy(password) then LoginResponse(400, Failure(MissingFieldsMessage), None)
      else if Matches(username, password) then LoginResponse(200, Success, Some(SessionCookie(production)))
      else LoginResponse(401, Failure(WrongCredentialsMessage), None)
  }

  /** Only the exact pair opens a session, whatever the environment. */
  lemma OnlyExactCredentialsLogIn(username: Val, password: Val, production: bool)
    ensures Login(Fields(username, password), production).cookie.Some?
        <==> username == Str("admin") && password == Str("admin2025@")
  {
  }

  /**
   * Any non-empty string pair other than the configured one is refused with
   * 401; in particular a credential that differs only by surrounding spaces
   * or letter case.
   */
  lemma NoTrimNoCaseFolding(username: string, password: string, production: bool)
    requires username != "" && password != ""
    requires username != AdminUser || password != AdminPassword
    ensures Login(Fields(Str(username), Str(password)), production).status == 401
    ensures Login(Fields(Str(" admin"), Str(AdminPassword)), production).status == 401
    ensures Login(Fields(Str("Admin"), Str(AdminPassword)), production).status == 401
    ensures Login(Fields(Str(AdminUser), Str("admin2025@ ")), production).status == 401
  {
  }

  /** The emptiness check comes first: an empty password is 400 even for the right user. */
  lemma MissingFieldBeforeComparison(username: Val, production: bool)
    ensures Login(Fields(username, Str("")), production).status == 400
    ensures Login(Fields(username, Undefined), production).status == 400
  {
  }
}
