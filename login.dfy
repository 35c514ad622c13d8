/**
  The login form: local checks before anything is sent, the session record
  built from the authentication service's answer, the classification of a
  failed call, and the page chosen after a successful login.
 */
module Login {
  import opened Common
  import opened SessionData
  import opened EmailRule
  import opened Header

  datatype LoginError = InvalidEmail | ShortPassword | WrongCredentials | ServerProblem | CannotConnect

  /** The body of a successful login response. */
  datatype LoginData = LoginData(idUsuario: int, nombre: string, rol: string, token: string)

  /** The two local checks, in order: the e-mail must pass the suffix rule and
      be at most 100 characters long, then the password must be at least 6. */
  function ValidateLogin(correo: string, contrasena: string): (e: Option<LoginError>)
    ensures e == Some(InvalidEmail) <==> !ValidEmail(correo) || Utf16Length(correo) > 100
    ensures e == Some(ShortPassword) <==>
              ValidEmail(correo) && Utf16Length(correo) <= 100 && Utf16Length(contrasena) < 6
    ensures e == None <==>
              ValidEmail(correo) && Utf16Length(correo) <= 100 && Utf16Length(contrasena) >= 6
  {
    if !ValidEmail(correo) || Utf16Length(correo) > 100 then Some(InvalidEmail)
    else if Utf16Length(contrasena) < 6 then Some(ShortPassword)
    else None
  }

  /** The catch block: 401 means wrong credentials, any other error response
      a server problem, and no response at all that the server is unreachable. */
  function ClassifyFailure(o: Outcome<LoginData>): (e: LoginError)
    requires !o.Ok?
    ensures e == WrongCredentials <==> o.Rejected? && o.status == 401
    ensures e == ServerProblem <==> o.Rejected? && o.status != 401
    ensures e == CannotConnect <==> o.NoResponse?
  {
    if o.Rejected? then (if o.status == 401 then WrongCredentials else ServerProblem)
    else CannotConnect
  }

  datatype Route = HomePage | AdminPanel

  /** `data.rol.toLowerCase()` containing 'admin' or 'vendedor' leads to
      '/admin', anything else to '/'. */
  function RouteAfterLogin(rol: string): (r: Route)
    ensures r == AdminPanel <==> Includes(ToLower(rol), "admin") || Includes(ToLower(rol), "vendedor")
  {
    var lower := ToLower(rol);
    if Includes(lower, "admin") || Includes(lower, "vendedor") then AdminPanel else HomePage
  }

  /** `usuarioSesion`: the address typed in the form, everything else from
      the response. */
  function SessionFromLogin(correo: string, data: LoginData): (u: User)
    ensures u.correo == Some(correo)
    ensures u.idUsuario == Some(data.idUsuario) && u.nombreCompleto == Some(data.nombre)
    ensures u.rol == Some(data.rol) && u.token == Some(data.token)
    ensures u.fechaNacimiento.None? && u.telefono.None? && u.idRegion.None? && u.idComuna.None?
  {
    User(Some(data.idUsuario), Some(data.nombre), Some(correo), Some(data.rol), Some(data.token),
         None, None, None, None)
  }

  datatype LoginResult =
    | Invalid(error: LoginError)
    | Failed(error: LoginError)
    | LoggedIn(session: User, welcome: string, route: Route)

  /** `handleSubmit`: the local checks, then the call whose ending is
      `response`. A successful login stores the session, greets the user by
      the first word of the name, and picks the next page from the role. */
  function SubmitLogin(correo: string, contrasena: string, response: Outcome<LoginData>): (r: LoginResult)
    ensures ValidateLogin(correo, contrasena).Some? ==> r == Invalid(ValidateLogin(correo, contrasena).value)
    ensures ValidateLogin(correo, contrasena).None? && response.Ok? ==>
              r == LoggedIn(SessionFromLogin(correo, response.body), FirstWord(response.body.nombre),
                            RouteAfterLogin(response.body.rol))
    ensures ValidateLogin(correo, contrasena).None? && !response.Ok? ==>
              r == Failed(ClassifyFailure(response))
  {
    match ValidateLogin(correo, contrasena)
    case Some(e) => Invalid(e)
    case None =>
      match response
      case Ok(data) => LoggedIn(SessionFromLogin(correo, data), FirstWord(data.nombre), RouteAfterLogin(data.rol))
      case _ => Failed(ClassifyFailure(response))
  }

  /** A form that fails a local check gets the same answer whatever the server
      would have said: no request is made. */
  lemma InvalidFormSendsNothing(correo: string, contrasena: string, r1: Outcome<LoginData>, r2: Outcome<LoginData>)
    requires ValidateLogin(correo, contrasena).Some?
    ensures SubmitLogin(correo, contrasena, r1) == SubmitLogin(correo, contrasena, r2)
    ensures SubmitLogin(correo, contrasena, r1).Invalid?
  {
  }

  /** A password of exactly six characters is accepted; five is not. */
  lemma PasswordBoundary(correo: string, p: string)
    requires ValidEmail(correo) && Utf16Length(correo) <= 100
    requires forall i :: 0 <= i < |p| ==> !IsAstral(p[i])
    ensures |p| == 6 ==> ValidateLogin(correo, p) == None
    ensures |p| == 5 ==> ValidateLogin(correo, p) == Some(ShortPassword)
  {
  }

  lemma LowerOfLower(s: string)
    requires forall i :: 0 <= i < |s| ==> !('A' <= s[i] <= 'Z')
    ensures ToLower(s) == s
  {
  }

  /** Every role that shows the header's admin link is also sent to '/admin'
      after login. */
  lemma PanelRolesGoToAdmin(u: User)
    requires ShowAdminPanel(Some(u))
    ensures RouteAfterLogin(u.rol.value) == AdminPanel
  {
    var rol := u.rol.value;
    LowerOfLower(rol);
    if rol == "administrador" {
      IncludesAt(rol, "admin", 0);
    } else {
      IncludesAt(rol, "vendedor", 0);
    }
  }

  /** The converse fails: the route test is a case-insensitive substring test
      while the header wants an exact lower-case role, so a role such as
      'ADMIN' reaches '/admin' without the header's admin link. */
  lemma AdminRouteWithoutPanel(u: User)
    requires u.rol == Some("ADMIN")
    ensures RouteAfterLogin("ADMIN") == AdminPanel
    ensures !ShowAdminPanel(Some(u))
  {
    assert ToLower("ADMIN") == "admin";
    IncludesAt("admin", "admin", 0);
  }
}
