/**
  The contact form: prefilled from the session, checked in a fixed order,
  and reset after the (simulated) sending in a way that depends on whether a
  user is logged in. A guest is first offered the login page.
 */
module Contacto {
  import opened Common
  import opened SessionData
  import opened EmailRule

  datatype ContactForm = ContactForm(nombre: string, correo: string, comentario: string)

  const EmptyForm := ContactForm("", "", "")

  datatype ContactPage = ContactPage(usuario: Option<User>, form: ContactForm)

  /** The loading effect: a stored user's name and address fill the form
      (missing ones as empty text); a guest gets an empty form. An unreadable
      record makes the effect throw, so it is excluded. */
  function Prefill(stored: Record<User>): (p: ContactPage)
    requires !stored.Unparsable?
    ensures p.usuario == ParsedUser(stored)
    ensures stored.Absent? ==> p.form == EmptyForm
    ensures stored.Present? ==>
              p.form == ContactForm(OrEmpty(stored.value.nombreCompleto), OrEmpty(stored.value.correo), "")
  {
    match stored
    case Absent => ContactPage(None, EmptyForm)
    case Present(u) => ContactPage(Some(u), ContactForm(OrEmpty(u.nombreCompleto), OrEmpty(u.correo), ""))
  }

  datatype Field = Nombre | Correo | Comentario

  /** `handleChange`: only the edited field changes. */
  function HandleChange(f: ContactForm, field: Field, value: string): (g: ContactForm)
    ensures field == Nombre ==> g.nombre == value && g.correo == f.correo && g.comentario == f.comentario
    ensures field == Correo ==> g.correo == value && g.nombre == f.nombre && g.comentario == f.comentario
    ensures field == Comentario ==> g.comentario == value && g.nombre == f.nombre && g.correo == f.correo
  {
    match field
    case Nombre => f.(nombre := value)
    case Correo => f.(correo := value)
    case Comentario => f.(comentario := value)
  }

  datatype ContactError = NameTooLong | EmailTooLong | InvalidEmail | CommentTooLong

  /** The checks of `procesarEnvio`, in order: name at most 100 characters,
      address at most 100, address passing the suffix rule, comment at most
      500. The first failure is the one reported. */
  function ValidateContact(f: ContactForm): (e: Option<ContactError>)
    ensures e == Some(NameTooLong) <==> Utf16Length(f.nombre) > 100
    ensures e == Some(EmailTooLong) <==> Utf16Length(f.nombre) <= 100 && Utf16Length(f.correo) > 100
    ensures e == Some(InvalidEmail) <==>
              Utf16Length(f.nombre) <= 100 && Utf16Length(f.correo) <= 100 && !ValidEmail(f.correo)
    ensures e == Some(CommentTooLong) <==>
              Utf16Length(f.nombre) <= 100 && Utf16Length(f.correo) <= 100 && ValidEmail(f.correo)
              && Utf16Length(f.comentario) > 500
    ensures e == None <==>
              Utf16Length(f.nombre) <= 100 && Utf16Length(f.correo) <= 100 && ValidEmail(f.correo)
              && Utf16Length(f.comentario) <= 500
  {
    if Utf16Length(f.nombre) > 100 then Some(NameTooLong)
    else if Utf16Length(f.correo) > 100 then Some(EmailTooLong)
    else if !ValidEmail(f.correo) then Some(InvalidEmail)
    else if Utf16Length(f.comentario) > 500 then Some(CommentTooLong)
    else None
  }

  /** A comment of exactly 500 characters is accepted; 501 is not. */
  lemma CommentBoundary(f: ContactForm)
    requires Utf16Length(f.nombre) <= 100 && Utf16Length(f.correo) <= 100 && ValidEmail(f.correo)
    requires forall i :: 0 <= i < |f.comentario| ==> !IsAstral(f.comentario[i])
    ensures |f.comentario| == 500 ==> ValidateContact(f) == None
    ensures |f.comentario| == 501 ==> ValidateContact(f) == Some(CommentTooLong)
  {
  }

  /** The reset after sending: the comment is always cleared; a guest's name
      and address are cleared too, a logged-in user's are kept. */
  function AfterSend(f: ContactForm, loggedIn: bool): (g: ContactForm)
    ensures g.comentario == ""
    ensures loggedIn ==> g.nombre == f.nombre && g.correo == f.correo
    ensures !loggedIn ==> g == EmptyForm
  {
    if loggedIn then f.(comentario := "") else EmptyForm
  }

  /** After a logged-in user sends, the form is the one a fresh visit of the
      page would show, as long as the fields were not edited. */
  lemma AfterSendRestoresPrefill(u: User, comentario: string)
    ensures AfterSend(Prefill(Present(u)).form.(comentario := comentario), true) == Prefill(Present(u)).form
  {
  }

  datatype SendResult = Refused(error: ContactError) | Sent(form: ContactForm)

  /** `procesarEnvio`: the checks, then the reset of the form. */
  function ProcessSend(f: ContactForm, loggedIn: bool): (r: SendResult)
    ensures r.Sent? <==> ValidateContact(f).None?
    ensures r.Refused? ==> r.error == ValidateContact(f).value
    ensures r.Sent? ==> r.form == AfterSend(f, loggedIn)
  {
    match ValidateContact(f)
    case Some(e) => Refused(e)
    case None => Sent(AfterSend(f, loggedIn))
  }

  /** The guest's answer to the suggestion to log in. */
  datatype GuestChoice = GoToLogin | ContinueAsGuest

  datatype SubmitResult = SentToLogin | Processed(result: SendResult)

  /** `handleSubmit`: a logged-in user's message is processed at once; a guest
      either goes to the login page (nothing is checked or sent) or carries on
      as a guest. */
  function HandleSubmit(p: ContactPage, choice: GuestChoice): (r: SubmitResult)
    ensures r == SentToLogin <==> p.usuario.None? && choice == GoToLogin
    ensures r.Processed? ==> r.result == ProcessSend(p.form, p.usuario.Some?)
  {
    if p.usuario.None? && choice == GoToLogin then SentToLogin
    else Processed(ProcessSend(p.form, p.usuario.Some?))
  }

  /** A logged-in user is never asked: the guest's choice plays no part. */
  lemma LoggedInIgnoresChoice(p: ContactPage, c1: GuestChoice, c2: GuestChoice)
    requires p.usuario.Some?
    ensures HandleSubmit(p, c1) == HandleSubmit(p, c2)
  {
  }
}
