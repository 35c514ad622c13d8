/**
  What the pages keep in `sessionStorage`. Each stored value is JSON text; the
  model keeps the parsed value, and says when reading it would fail.
 */
module SessionData {
  import opened Common

  /** The `usuarioActual` record. Login and registration write `idUsuario`,
      `nombreCompleto`, `correo`, `rol` and `token`; the settings page also
      reads `fechaNacimiento`, `telefono`, `idRegion` and `idComuna`, which may
      be missing, so every field is optional. */
  datatype User = User(
    idUsuario: Option<int>,
    nombreCompleto: Option<string>,
    correo: Option<string>,
    rol: Option<string>,
    token: Option<string>,
    fechaNacimiento: Option<string>,
    telefono: Option<string>,
    idRegion: Option<string>,
    idComuna: Option<string>)

  /** A stored key: missing, text that `JSON.parse` rejects or that is not
      of the expected shape, or a value that parses. The empty string is
      `Absent` only for a reader that tests the text first (the cart, read
      through `|| '[]'`); `usuarioActual` is handed to `JSON.parse` directly,
      so the empty string is `Unparsable` there. */
  datatype Record<+T> = Absent | Unparsable | Present(value: T)

  /** The `usuarioActual` value as the pages see it after `JSON.parse`, when
      parsing succeeds. */
  function ParsedUser(r: Record<User>): (u: Option<User>)
    requires !r.Unparsable?
    ensures u.Some? <==> r.Present?
  {
    if r.Present? then Some(r.value) else None
  }

  /** `usuario ? usuario.idUsuario : null` followed by the test `!idUsuario`:
      the user id that counts as logged in (a missing id or the id 0 is
      falsy). */
  function LoggedInId(u: Option<User>): (id: Option<int>)
    ensures id.Some? <==> u.Some? && u.value.idUsuario.Some? && u.value.idUsuario.value != 0
    ensures id.Some? ==> id == u.value.idUsuario
  {
    if u.Some? && u.value.idUsuario.Some? && u.value.idUsuario.value != 0 then u.value.idUsuario else None
  }
}
