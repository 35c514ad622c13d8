/**
  The registration form: editing (a new region resets the comuna), the
  ordered checks, the benefits announced to the new user, the account sent to
  the authentication service, and the automatic login that follows.
 */
module Registro {
  import opened Common
  import opened SessionData
  import opened EmailRule
  import opened Geography
  import Login
  import Header

  datatype RegistroForm = RegistroForm(
    nombreCompleto: string, correo: string, contrasena: string, confirmarContrasena: string,
    fechaNacimiento: string, telefono: string, idRegion: string, idComuna: string,
    codigoDescuento: string)

  const EmptyForm := RegistroForm("", "", "", "", "", "", "", "", "")

  datatype Field =
    | NombreCompleto | Correo | Contrasena | ConfirmarContrasena | FechaNacimiento
    | Telefono | IdRegion | IdComuna | CodigoDescuento

  function Get(f: RegistroForm, field: Field): string {
    match field
    case NombreCompleto => f.nombreCompleto
    case Correo => f.correo
    case Contrasena => f.contrasena
    case ConfirmarContrasena => f.confirmarContrasena
    case FechaNacimiento => f.fechaNacimiento
    case Telefono => f.telefono
    case IdRegion => f.idRegion
    case IdComuna => f.idComuna
    case CodigoDescuento => f.codigoDescuento
  }

  /** `{ ...prev, [id]: value }`. */
  function Set(f: RegistroForm, field: Field, value: string): (g: RegistroForm)
    ensures forall other :: Get(g, other) == if other == field then value else Get(f, other)
  {
    match field
    case NombreCompleto => f.(nombreCompleto := value)
    case Correo => f.(correo := value)
    case Contrasena => f.(contrasena := value)
    case ConfirmarContrasena => f.(confirmarContrasena := value)
    case FechaNacimiento => f.(fechaNacimiento := value)
    case Telefono => f.(telefono := value)
    case IdRegion => f.(idRegion := value)
    case IdComuna => f.(idComuna := value)
    case CodigoDescuento => f.(codigoDescuento := value)
  }

  datatype FormState = FormState(form: RegistroForm, comunas: seq<Comuna>)

  /** `handleChange`: the edited field takes the new value; choosing a region
      also clears the comuna and offers that region's comunas. */
  function HandleChange(s: FormState, field: Field, value: string): (t: FormState)
    ensures Get(t.form, field) == value
    ensures field == IdRegion ==> t.form.idComuna == "" && t.comunas == ComunasFor(value)
    ensures forall other :: other != field && !(field == IdRegion && other == IdComuna) ==>
              Get(t.form, other) == Get(s.form, other)
    ensures field != IdRegion ==> t.comunas == s.comunas
  {
    var edited := Set(s.form, field, value);
    if field == IdRegion then
      var change := SelectRegion(value);
      FormState(Set(edited, IdComuna, change.idComuna), change.comunas)
    else
      FormState(edited, s.comunas)
  }

  datatype RegError = PasswordMismatch | PasswordTooShort | InvalidEmail

  /** The checks, in order: the two passwords must be equal, the password
      must have at least 4 characters, the e-mail must pass the suffix rule.
      The first failure is the one reported. */
  function ValidateRegistration(f: RegistroForm): (e: Option<RegError>)
    ensures e == Some(PasswordMismatch) <==> f.contrasena != f.confirmarContrasena
    ensures e == Some(PasswordTooShort) <==>
              f.contrasena == f.confirmarContrasena && Utf16Length(f.contrasena) < 4
    ensures e == Some(InvalidEmail) <==>
              f.contrasena == f.confirmarContrasena && Utf16Length(f.contrasena) >= 4 && !ValidEmail(f.correo)
    ensures e == None <==>
              f.contrasena == f.confirmarContrasena && Utf16Length(f.contrasena) >= 4 && ValidEmail(f.correo)
  {
    if f.contrasena != f.confirmarContrasena then Some(PasswordMismatch)
    else if Utf16Length(f.contrasena) < 4 then Some(PasswordTooShort)
    else if !ValidEmail(f.correo) then Some(InvalidEmail)
    else None
  }

  /** A four-character password is long enough; three is not. */
  lemma PasswordLengthBoundary(f: RegistroForm)
    requires f.contrasena == f.confirmarContrasena
    requires forall i :: 0 <= i < |f.contrasena| ==> !IsAstral(f.contrasena[i])
    ensures |f.contrasena| == 4 ==> ValidateRegistration(f) != Some(PasswordTooShort)
    ensures |f.contrasena| == 3 ==> ValidateRegistration(f) == Some(PasswordTooShort)
  {
  }

  datatype Benefit = DuocDiscount | AgeDiscount | Felices50Code

  function Rank(b: Benefit): nat {
    match b
    case DuocDiscount => 0
    case AgeDiscount => 1
    case Felices50Code => 2
  }

  predicate IsDuocAddress(correo: string) {
    EndsWith(correo, DuocSuffix) || EndsWith(correo, ProfesorSuffix)
  }

  /** The benefit messages, pushed in a fixed order: Duoc address, age of 50
      or more (the age comes from the clock, so it is an input here), and the
      code FELICES50 in any casing. */
  function Benefits(correo: string, ageAtLeast50: bool, codigo: string): (r: seq<Benefit>)
    ensures DuocDiscount in r <==> IsDuocAddress(correo)
    ensures AgeDiscount in r <==> ageAtLeast50
    ensures Felices50Code in r <==> ToUpper(codigo) == "FELICES50"
    ensures forall i, j :: 0 <= i < j < |r| ==> Rank(r[i]) < Rank(r[j])
  {
    (if IsDuocAddress(correo) then [DuocDiscount] else [])
    + (if ageAtLeast50 then [AgeDiscount] else [])
    + (if ToUpper(codigo) == "FELICES50" then [Felices50Code] else [])
  }

  /** Every address that earns the Duoc benefit also passes the e-mail check,
      so the benefit never names a rejected address. */
  lemma DuocBenefitImpliesValidEmail(correo: string)
    requires IsDuocAddress(correo)
    ensures ValidEmail(correo)
  {
    LiteralSuffixAccepted(correo);
  }

  /** The code is compared after upper-casing, so any casing works, but it is
      not trimmed. */
  lemma CodeCasing()
    ensures ToUpper("felices50") == "FELICES50"
    ensures ToUpper("Felices50") == "FELICES50"
    ensures ToUpper(" FELICES50") != "FELICES50"
  {
  }

  /** `usuarioParaBackend`. */
  datatype RegisterPayload = RegisterPayload(
    nombreCompleto: string, correo: string, contrasena: string, rol: string, telefono: string,
    idRegion: Option<int>, idComuna: Option<int>, fechaNacimiento: string)

  function BuildPayload(f: RegistroForm): (p: RegisterPayload)
    ensures p.rol == "CLIENTE"
    ensures p.nombreCompleto == f.nombreCompleto && p.correo == f.correo && p.contrasena == f.contrasena
    ensures p.telefono == f.telefono && p.fechaNacimiento == f.fechaNacimiento
    ensures p.idRegion == ParseInt(f.idRegion) && p.idComuna == ParseInt(f.idComuna)
  {
    RegisterPayload(f.nombreCompleto, f.correo, f.contrasena, "CLIENTE", f.telefono,
                    ParseInt(f.idRegion), ParseInt(f.idComuna), f.fechaNacimiento)
  }

  const GenericRegistrationError := "Hubo un problema al procesar tu solicitud."

  /** The catch block's message: the error response's text when it has one. */
  function FailureMessage<T>(o: Outcome<T>): (m: string)
    requires !o.Ok?
    ensures o.Rejected? && Truthy(o.data) ==> m == o.data.value
    ensures !(o.Rejected? && Truthy(o.data)) ==> m == GenericRegistrationError
  {
    if o.Rejected? && Truthy(o.data) then o.data.value else GenericRegistrationError
  }

  datatype RegResult =
    | Invalid(error: RegError)
    | Failed(message: string)
    | Registered(session: User, welcome: string, benefits: seq<Benefit>)

  /** `handleSubmit`: the checks, then the registration call (ending in
      `registered`), then the login call with the same credentials (ending in
      `loggedIn`). The session comes from the login answer, and the welcome
      names the first word of the name in it. */
  function SubmitRegistration(f: RegistroForm, ageAtLeast50: bool,
                              registered: Outcome<()>, loggedIn: Outcome<Login.LoginData>): (r: RegResult)
    ensures ValidateRegistration(f).Some? ==> r == Invalid(ValidateRegistration(f).value)
    ensures ValidateRegistration(f).None? && !registered.Ok? ==> r == Failed(FailureMessage(registered))
    ensures ValidateRegistration(f).None? && registered.Ok? && !loggedIn.Ok? ==>
              r == Failed(FailureMessage(loggedIn))
    ensures r.Registered? <==> ValidateRegistration(f).None? && registered.Ok? && loggedIn.Ok?
    ensures r.Registered? ==>
              r.session == Login.SessionFromLogin(f.correo, loggedIn.body)
              && r.welcome == Header.FirstWord(loggedIn.body.nombre)
              && r.benefits == Benefits(f.correo, ageAtLeast50, f.codigoDescuento)
  {
    match ValidateRegistration(f)
    case Some(e) => Invalid(e)
    case None =>
      if !registered.Ok? then Failed(FailureMessage(registered))
      else if !loggedIn.Ok? then Failed(FailureMessage(loggedIn))
      else Registered(Login.SessionFromLogin(f.correo, loggedIn.body), Header.FirstWord(loggedIn.body.nombre),
                      Benefits(f.correo, ageAtLeast50, f.codigoDescuento))
  }

  /** A form that fails a check gets the same answer whatever either service
      would have said: no request is made. */
  lemma RejectedFormSendsNothing(f: RegistroForm, age: bool,
                                 a1: Outcome<()>, b1: Outcome<Login.LoginData>,
                                 a2: Outcome<()>, b2: Outcome<Login.LoginData>)
    requires ValidateRegistration(f).Some?
    ensures SubmitRegistration(f, age, a1, b1) == SubmitRegistration(f, age, a2, b2)
  {
  }

  /** When registration fails the login answer plays no part: the login call
      is never made. */
  lemma FailedRegistrationSkipsLogin(f: RegistroForm, age: bool, a: Outcome<()>,
                                     b1: Outcome<Login.LoginData>, b2: Outcome<Login.LoginData>)
    requires !a.Ok?
    ensures SubmitRegistration(f, age, a, b1) == SubmitRegistration(f, age, a, b2)
  {
  }
}
