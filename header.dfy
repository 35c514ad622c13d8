/**
  The navigation header: the cart badge and the user it shows (re-read from
  session storage on every 'storageChange' and 'carroActualizado' event), the
  admin-panel link, and the greeting. Logging out is
  `Store.SessionStore.Logout`.
 */
module Header {
  import opened Common
  import opened SessionData
  import opened Cart
  import opened Store

  datatype HeaderState = HeaderState(cartCount: int, user: Option<User>)

  /** `updateState`: both records are parsed inside one `try`; if either
      fails to parse, the catch shows no items and no user. */
  function UpdateState(carro: Record<seq<Item>>, usuario: Record<User>): (h: HeaderState)
    ensures carro.Unparsable? || usuario.Unparsable? ==> h == HeaderState(0, None)
    ensures !carro.Unparsable? && !usuario.Unparsable? ==>
              h.cartCount == ItemCount(ReadCart(carro)) && h.user == ParsedUser(usuario)
  {
    if carro.Unparsable? || usuario.Unparsable? then HeaderState(0, None)
    else HeaderState(ItemCount(ReadCart(carro)), ParsedUser(usuario))
  }

  /** With no cart stored the badge shows 0; with a well-formed cart it is
      never negative. */
  lemma BadgeCount(carro: Record<seq<Item>>, usuario: Record<User>)
    ensures carro.Absent? ==> UpdateState(carro, usuario).cartCount == 0
    ensures carro.Present? && PositiveQuantities(carro.value) ==> UpdateState(carro, usuario).cartCount >= 0
  {
    if carro.Present? && PositiveQuantities(carro.value) {
      forall i | 0 <= i < |carro.value| ensures Quantity(carro.value[i]) >= 0 {
        assert carro.value[i].cantidad >= 1;
      }
      SumNonNegative(carro.value, Quantity);
    }
  }

  /** After an item is added to a stored cart, the badge grows by exactly the
      amount added. */
  lemma BadgeAfterAdd(c: seq<Item>, item: Item, usuario: Record<User>)
    requires !usuario.Unparsable?
    ensures UpdateState(Present(AddItem(c, item)), usuario).cartCount
            == UpdateState(Present(c), usuario).cartCount + item.cantidad
  {
    AddItemCount(c, item);
  }

  /** `shouldShowAdminPanel`: a user whose role is exactly 'administrador' or
      'vendedor'. */
  predicate ShowAdminPanel(u: Option<User>) {
    u.Some? && (u.value.rol == Some("administrador") || u.value.rol == Some("vendedor"))
  }

  /** `split(' ')[0]`: the text before the first space. */
  function FirstWord(s: string): (w: string)
    ensures StartsWith(s, w)
    ensures forall i :: 0 <= i < |w| ==> w[i] != ' '
    ensures |w| < |s| ==> s[|w|] == ' '
  {
    if s == [] || s[0] == ' ' then [] else [s[0]] + FirstWord(s[1..])
  }

  /** `Hola, {usuarioActual.nombreCompleto?.split(' ')[0]}`: nothing when the
      name is missing. */
  function Greeting(u: User): (g: Option<string>)
    ensures g.Some? <==> u.nombreCompleto.Some?
    ensures g.Some? ==> g.value == FirstWord(u.nombreCompleto.value)
  {
    match u.nombreCompleto
    case None => None
    case Some(n) => Some(FirstWord(n))
  }

  /** A name without spaces is greeted in full; a leading space gives an
      empty greeting. */
  lemma {:induction false} FirstWordCases(s: string)
    ensures (forall i :: 0 <= i < |s| ==> s[i] != ' ') ==> FirstWord(s) == s
    ensures |s| > 0 && s[0] == ' ' ==> FirstWord(s) == ""
  {
    if s != [] && s[0] != ' ' {
      FirstWordCases(s[1..]);
      if forall i :: 0 <= i < |s| ==> s[i] != ' ' {
        assert forall i :: 0 <= i < |s[1..]| ==> s[1..][i] != ' ' by {
          forall i | 0 <= i < |s[1..]| ensures s[1..][i] != ' ' { assert s[1..][i] == s[i + 1]; }
        }
        assert [s[0]] + s[1..] == s;
      }
    }
  }
}
