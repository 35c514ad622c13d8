/**
  The account-settings page: the form filled from the stored session, field
  edits (a new region resets the comuna), the optional new password, the
  update sent to the authentication service, and the session record kept
  afterwards.
 */
module Ajustes {
  import opened Common
  import opened SessionData
  import opened Geography

  datatype SettingsForm = SettingsForm(
    idUsuario: Option<int>, nombreCompleto: string, correo: string,
    contrasena: string, confirmarContrasena: string,
    fechaNacimiento: string, telefono: string, idRegion: string, idComuna: string)

  /** The inputs that report changes; the e-mail input is disabled. */
  datatype Field =
    | NombreCompleto | Contrasena | ConfirmarContrasena | FechaNacimiento
    | Telefono | IdRegion | IdComuna

  function Get(f: SettingsForm, field: Field): string {
    match field
    case NombreCompleto => f.nombreCompleto
    case Contrasena => f.contrasena
    case ConfirmarContrasena => f.confirmarContrasena
    case FechaNacimiento => f.fechaNacimiento
    case Telefono => f.telefono
    case IdRegion => f.idRegion
    case IdComuna => f.idComuna
  }

  function Set(f: SettingsForm, field: Field, value: string): (g: SettingsForm)
    ensures forall other :: Get(g, other) == if other == field then value else Get(f, other)
    ensures g.idUsuario == f.idUsuario && g.correo == f.correo
  {
    match field
    case NombreCompleto => f.(nombreCompleto := value)
    case Contrasena => f.(contrasena := value)
    case ConfirmarContrasena => f.(confirmarContrasena := value)
    case FechaNacimiento => f.(fechaNacimiento := value)
    case Telefono => f.(telefono := value)
    case IdRegion => f.(idRegion := value)
    case IdComuna => f.(idComuna := value)
  }

  datatype Page =
    | RedirectToLogin
    | Loaded(form: SettingsForm, comunas: seq<Comuna>)

  /** The loading effect: with no stored user the page sends the visitor to
      the login page; otherwise every field comes from the session (missing
      ones as empty text), the password fields start empty, and the comunas
      of a stored region are offered. An unreadable record makes the effect
      throw, so it is excluded. */
  function LoadSettings(stored: Record<User>): (p: Page)
    requires !stored.Unparsable?
    ensures p.RedirectToLogin? <==> stored.Absent?
    ensures p.Loaded? ==>
              var u := stored.value;
              p.form.idUsuario == u.idUsuario
              && p.form.nombreCompleto == OrEmpty(u.nombreCompleto) && p.form.correo == OrEmpty(u.correo)
              && p.form.contrasena == "" && p.form.confirmarContrasena == ""
              && p.form.fechaNacimiento == OrEmpty(u.fechaNacimiento) && p.form.telefono == OrEmpty(u.telefono)
              && p.form.idRegion == OrEmpty(u.idRegion) && p.form.idComuna == OrEmpty(u.idComuna)
    ensures p.Loaded? ==>
              p.comunas == if Truthy(stored.value.idRegion) then ComunasFor(stored.value.idRegion.value) else []
  {
    match stored
    case Absent => RedirectToLogin
    case Present(u) =>
      var form := SettingsForm(u.idUsuario, OrEmpty(u.nombreCompleto), OrEmpty(u.correo), "", "",
                               OrEmpty(u.fechaNacimiento), OrEmpty(u.telefono),
                               OrEmpty(u.idRegion), OrEmpty(u.idComuna));
      Loaded(form, if Truthy(u.idRegion) then ComunasFor(u.idRegion.value) else [])
  }

  /** `handleChange`: the edited field takes the new value; choosing a region
      also clears the comuna and offers that region's comunas. */
  function HandleChange(form: SettingsForm, comunas: seq<Comuna>, field: Field, value: string)
    : (r: (SettingsForm, seq<Comuna>))
    ensures Get(r.0, field) == value
    ensures field == IdRegion ==> r.0.idComuna == "" && r.1 == ComunasFor(value)
    ensures forall other :: other != field && !(field == IdRegion && other == IdComuna) ==>
              Get(r.0, other) == Get(form, other)
    ensures r.0.idUsuario == form.idUsuario && r.0.correo == form.correo
    ensures field != IdRegion ==> r.1 == comunas
  {
    var edited := Set(form, field, value);
    if field == IdRegion then
      var change := SelectRegion(value);
      (Set(edited, IdComuna, change.idComuna), change.comunas)
    else
      (edited, comunas)
  }

  datatype SettingsError = PasswordMismatch | PasswordLength

  /** The password checks apply only when a new password was typed: it must
      equal its confirmation, then have between 4 and 10 characters. */
  function ValidateSettings(f: SettingsForm): (e: Option<SettingsError>)
    ensures e == Some(PasswordMismatch) <==> f.contrasena != "" && f.contrasena != f.confirmarContrasena
    ensures e == Some(PasswordLength) <==>
              f.contrasena != "" && f.contrasena == f.confirmarContrasena
              && (Utf16Length(f.contrasena) < 4 || Utf16Length(f.contrasena) > 10)
    ensures e == None <==>
              f.contrasena == ""
              || (f.contrasena == f.confirmarContrasena && 4 <= Utf16Length(f.contrasena) <= 10)
  {
    if f.contrasena != "" && f.contrasena != f.confirmarContrasena then Some(PasswordMismatch)
    else if f.contrasena != "" && (Utf16Length(f.contrasena) < 4 || Utf16Length(f.contrasena) > 10) then
      Some(PasswordLength)
    else None
  }

  /** An empty new password passes whatever the confirmation holds; the
      length window is 4 to 10 inclusive. */
  lemma PasswordWindow(f: SettingsForm)
    requires forall i :: 0 <= i < |f.contrasena| ==> !IsAstral(f.contrasena[i])
    ensures f.contrasena == "" ==> ValidateSettings(f) == None
    ensures f.contrasena == f.confirmarContrasena && (|f.contrasena| == 4 || |f.contrasena| == 10) ==>
              ValidateSettings(f) == None
    ensures f.contrasena == f.confirmarContrasena && (|f.contrasena| == 3 || |f.contrasena| == 11) ==>
              ValidateSettings(f) == Some(PasswordLength)
  {
  }

  /** `usuarioUpdateDto`; the password travels only when one was typed. */
  datatype UpdateDto = UpdateDto(
    idUsuario: Option<int>, nombreCompleto: string, telefono: string,
    idRegion: Option<int>, idComuna: Option<int>, fechaNacimiento: string,
    contrasena: Option<string>)

  function BuildUpdateDto(f: SettingsForm): (d: UpdateDto)
    ensures d.contrasena.Some? <==> f.contrasena != ""
    ensures d.contrasena.Some? ==> d.contrasena.value == f.contrasena
    ensures d.idUsuario == f.idUsuario && d.nombreCompleto == f.nombreCompleto
    ensures d.telefono == f.telefono && d.fechaNacimiento == f.fechaNacimiento
    ensures d.idRegion == ParseInt(f.idRegion) && d.idComuna == ParseInt(f.idComuna)
  {
    UpdateDto(f.idUsuario, f.nombreCompleto, f.telefono, ParseInt(f.idRegion), ParseInt(f.idComuna),
              f.fechaNacimiento, if f.contrasena != "" then Some(f.contrasena) else None)
  }

  const NoFields := User(None, None, None, None, None, None, None, None, None)

  /** `{ ...storedUser, nombreCompleto }`: every stored field is kept except
      the name; spreading a missing record contributes nothing. */
  function MergeSession(stored: Option<User>, nombre: string): (u: User)
    ensures u.nombreCompleto == Some(nombre)
    ensures stored.Some? ==>
              u.idUsuario == stored.value.idUsuario && u.correo == stored.value.correo
              && u.rol == stored.value.rol && u.token == stored.value.token
              && u.fechaNacimiento == stored.value.fechaNacimiento && u.telefono == stored.value.telefono
              && u.idRegion == stored.value.idRegion && u.idComuna == stored.value.idComuna
    ensures stored.None? ==> u == NoFields.(nombreCompleto := Some(nombre))
  {
    var base := if stored.Some? then stored.value else NoFields;
    base.(nombreCompleto := Some(nombre))
  }

  /** Merging twice with the same name is the same as merging once. */
  lemma MergeIdempotent(stored: Option<User>, nombre: string)
    ensures MergeSession(Some(MergeSession(stored, nombre)), nombre) == MergeSession(stored, nombre)
  {
  }

  datatype SettingsResult =
    | Invalid(error: SettingsError)
    | UpdateFailed
    | Updated(session: User)

  /** `handleSubmit`: the checks, then the update whose ending is `response`,
      then the merge into the session record read again from storage. Reading
      an unreadable record throws inside the same `try`, so it ends like a
      failed update. */
  function SubmitSettings(f: SettingsForm, stored: Record<User>, response: Outcome<()>): (r: SettingsResult)
    ensures ValidateSettings(f).Some? ==> r == Invalid(ValidateSettings(f).value)
    ensures r.Updated? <==> ValidateSettings(f).None? && response.Ok? && !stored.Unparsable?
    ensures r.Updated? ==> r.session == MergeSession(ParsedUser(stored), f.nombreCompleto)
    ensures r == UpdateFailed <==> ValidateSettings(f).None? && (!response.Ok? || stored.Unparsable?)
  {
    match ValidateSettings(f)
    case Some(e) => Invalid(e)
    case None =>
      if !response.Ok? || stored.Unparsable? then UpdateFailed
      else Updated(MergeSession(ParsedUser(stored), f.nombreCompleto))
  }

  /** A form that fails a check gets the same answer whatever the server and
      storage hold: no request is made. */
  lemma InvalidFormSendsNothing(f: SettingsForm, s1: Record<User>, s2: Record<User>, r1: Outcome<()>, r2: Outcome<()>)
    requires ValidateSettings(f).Some?
    ensures SubmitSettings(f, s1, r1) == SubmitSettings(f, s2, r2)
  {
  }

  /** Loading a stored session and saving it unchanged keeps the session
      exactly as it was, provided the stored name is present. */
  lemma LoadThenSaveKeepsSession(u: User, response: Outcome<()>)
    requires response.Ok? && u.nombreCompleto.Some?
    ensures LoadSettings(Present(u)).Loaded?
    ensures SubmitSettings(LoadSettings(Present(u)).form, Present(u), response) == Updated(u)
  {
    var f := LoadSettings(Present(u)).form;
    assert ValidateSettings(f) == None;
  }
}
