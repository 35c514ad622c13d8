/**
  The browser's `sessionStorage` as the shop uses it, and the handlers that
  change it: "add to cart" on the product page, the quantity, remove, coupon
  and pay handlers of the cart page, logout in the header, and the session
  write that login, registration and settings share. Every write that the
  pages announce with `window.dispatchEvent` is recorded in `events`.
 */
module Store {
  import opened Common
  import opened SessionData
  import opened Cart
  import opened Pricing

  /** The two notifications the pages dispatch: 'carroActualizado' after a
      cart write, 'storageChange' after a session change. */
  datatype Event = CartChanged | StorageChanged

  /** The fields of a catalogue product that the cart uses. */
  datatype Product = Product(idProducto: int, nombre: string, precio: nat)

  /** `obtenerCarro` when the stored text parses: a missing record (or the
      empty string) reads as the empty cart. */
  function ReadCart(r: Record<seq<Item>>): (c: seq<Item>)
    requires !r.Unparsable?
    ensures r.Absent? ==> c == []
    ensures r.Present? ==> c == r.value
  {
    if r.Present? then r.value else []
  }

  /** The unit price the product page offers: the list price with the
      discount chosen by `obtenerDescuento`, rounded. */
  function OfferedPrice(p: Product, d: Discounts): (r: nat)
    ensures r <= p.precio
    ensures DiscountPercent(d) == 0 ==> r == p.precio
  {
    UnitPrice(p.precio, DiscountPercent(d))
  }

  /** The amount field of the product page, `parseInt(value) || 1`: text
      that does not parse, and 0, give 1; any other number, negative ones
      included, is kept (the add handler refuses those). */
  function QuantityInput(value: string): (n: int)
    ensures n != 0
    ensures ParseInt(value).None? || ParseInt(value) == Some(0) ==> n == 1
    ensures ParseInt(value).Some? && ParseInt(value).value != 0 ==> n == ParseInt(value).value
  {
    match ParseInt(value)
    case Some(v) => if v == 0 then 1 else v
    case None => 1
  }

  /** A positive amount typed in decimal is the amount added. */
  lemma TypedAmount(n: nat)
    requires n >= 1
    ensures QuantityInput(DecimalString(n)) == n
  {
    ParseIntDecimal(n);
  }

  // ---------------------------------------------------------------------------
  // The order sent to the orders service.

  datatype Detail = Detail(idProductoRef: int, nombreProducto: string, precioUnitario: nat, cantidad: int)
  datatype Order = Order(idUsuarioRef: int, total: int, detalles: seq<Detail>)

  function ToDetail(it: Item): Detail {
    Detail(it.idProducto, it.nombre, it.precioFinal, it.cantidad)
  }

  /** `pedidoDTO`: one detail per cart item, in cart order. */
  function BuildOrder(c: seq<Item>, idUsuario: int, total: int): (o: Order)
    ensures o.idUsuarioRef == idUsuario && o.total == total
    ensures |o.detalles| == |c|
    ensures forall i :: 0 <= i < |c| ==>
              o.detalles[i].idProductoRef == c[i].idProducto
              && o.detalles[i].nombreProducto == c[i].nombre
              && o.detalles[i].precioUnitario == c[i].precioFinal
              && o.detalles[i].cantidad == c[i].cantidad
  {
    Order(idUsuario, total, seq(|c|, i requires 0 <= i < |c| => ToDetail(c[i])))
  }

  /** What the order's lines add up to. */
  function DetailsTotal(ds: seq<Detail>): int {
    if ds == [] then 0
    else DetailsTotal(ds[..|ds| - 1]) + ds[|ds| - 1].precioUnitario * ds[|ds| - 1].cantidad
  }

  /** The order's lines add up to the cart's subtotal: the server can recompute
      the pre-coupon amount from the details alone. */
  lemma {:induction false} OrderLinesMatchSubtotal(c: seq<Item>, idUsuario: int, total: int)
    ensures DetailsTotal(BuildOrder(c, idUsuario, total).detalles) == Subtotal(c)
    decreases |c|
  {
    if c != [] {
      var n := |c| - 1;
      var ds := BuildOrder(c, idUsuario, total).detalles;
      assert ds[..n] == BuildOrder(c[..n], idUsuario, total).detalles;
      OrderLinesMatchSubtotal(c[..n], idUsuario, total);
    }
  }

  const GenericPaymentError := "Ocurrió un error al intentar generar el pedido."

  /** The message of a failed payment: the server's text when the error
      response carries one, the generic sentence otherwise. */
  function PaymentErrorMessage(o: Outcome<string>): (m: string)
    requires !o.Ok?
    ensures o.Rejected? && Truthy(o.data) ==> m == "Error: " + o.data.value
    ensures !(o.Rejected? && Truthy(o.data)) ==> m == GenericPaymentError
  {
    if o.Rejected? && Truthy(o.data) then "Error: " + o.data.value else GenericPaymentError
  }

  datatype AddResult = NeedsLogin | BadQuantity | CartUnreadable | Added
  datatype PayResult = EmptyCart | NotLoggedIn | Paid(confirmation: string) | PaymentFailed(message: string)

  class SessionStore {
    var carro: Record<seq<Item>>
    var cuponActivo: Option<string>
    var usuarioActual: Record<User>
    var descuentos: Discounts
    var events: seq<Event>

    constructor (carro: Record<seq<Item>>, cuponActivo: Option<string>,
                 usuarioActual: Record<User>, descuentos: Discounts)
      ensures this.carro == carro && this.cuponActivo == cuponActivo
      ensures this.usuarioActual == usuarioActual && this.descuentos == descuentos
      ensures events == []
    {
      this.carro := carro;
      this.cuponActivo := cuponActivo;
      this.usuarioActual := usuarioActual;
      this.descuentos := descuentos;
      events := [];
    }

    predicate CartReadable()
      reads this
    {
      !carro.Unparsable?
    }

    function Items(): seq<Item>
      reads this
      requires CartReadable()
    {
      ReadCart(carro)
    }

    /** The cart the handlers keep: it parses, each product appears once, and
        every quantity is at least 1. */
    predicate WellFormedCart()
      reads this
    {
      CartReadable() && UniqueIds(Items()) && PositiveQuantities(Items())
    }

    /** "Add to cart" (`handleAddToCart`): the stored user is required, then a
        positive amount; the cart is then read, merged and written back. */
    method AddToCart(p: Product, cantidad: int) returns (r: AddResult)
      modifies this
      ensures r == NeedsLogin <==> old(usuarioActual).Absent?
      ensures r == BadQuantity <==> !old(usuarioActual).Absent? && cantidad <= 0
      ensures r == CartUnreadable <==> !old(usuarioActual).Absent? && cantidad > 0 && old(carro).Unparsable?
      ensures r != Added ==> carro == old(carro) && events == old(events)
      ensures r == Added ==>
                carro == Present(AddItem(ReadCart(old(carro)),
                                         Item(p.idProducto, p.nombre, OfferedPrice(p, descuentos), cantidad)))
                && events == old(events) + [CartChanged]
      ensures r == Added ==> ItemCount(Items()) == ItemCount(ReadCart(old(carro))) + cantidad
      ensures old(WellFormedCart()) ==> WellFormedCart()
      ensures cuponActivo == old(cuponActivo) && usuarioActual == old(usuarioActual)
      ensures descuentos == old(descuentos)
    {
      if usuarioActual.Absent? {
        return NeedsLogin;
      }
      if cantidad <= 0 {
        return BadQuantity;
      }
      if carro.Unparsable? {
        return CartUnreadable;
      }
      var c := ReadCart(carro);
      var item := Item(p.idProducto, p.nombre, OfferedPrice(p, descuentos), cantidad);
      var updated := AddItem(c, item);
      assert ItemCount(updated) == ItemCount(c) + cantidad by {
        AddItemCount(c, item);
      }
      assert UniqueIds(c) && PositiveQuantities(c) ==> UniqueIds(updated) && PositiveQuantities(updated) by {
        if UniqueIds(c) && PositiveQuantities(c) {
          AddItemKeepsInvariants(c, item);
        }
      }
      carro := Present(updated);
      assert Items() == updated;
      events := events + [CartChanged];
      r := Added;
    }

    /** The "-" and "+" buttons (`handleQuantityChange`). The cart page only
        renders when its cart record parses. */
    method ChangeItemQuantity(id: int, change: int)
      requires CartReadable()
      modifies this
      ensures carro == Present(ChangeQuantity(ReadCart(old(carro)), id, change))
      ensures events == old(events) + [CartChanged]
      ensures old(WellFormedCart()) ==> WellFormedCart()
      ensures cuponActivo == old(cuponActivo) && usuarioActual == old(usuarioActual)
      ensures descuentos == old(descuentos)
    {
      var c := ReadCart(carro);
      if PositiveQuantities(c) {
        ChangeQuantityKeepsShape(c, id, change);
      }
      carro := Present(ChangeQuantity(c, id, change));
      events := events + [CartChanged];
    }

    /** The "Eliminar" button (`handleRemoveItem`). */
    method RemoveItem(id: int)
      requires CartReadable()
      modifies this
      ensures carro == Present(Remove(ReadCart(old(carro)), id))
      ensures !HasId(Items(), id)
      ensures events == old(events) + [CartChanged]
      ensures old(WellFormedCart()) ==> WellFormedCart()
      ensures cuponActivo == old(cuponActivo) && usuarioActual == old(usuarioActual)
      ensures descuentos == old(descuentos)
    {
      var c := ReadCart(carro);
      var r := Remove(c, id);
      RemoveDropsId(c, id);
      if UniqueIds(c) {
        RemoveKeepsInvariants(c, id);
      }
      carro := Present(r);
      events := events + [CartChanged];
    }

    /** The coupon form (`handleCouponSubmit`): the input is upper-cased (not
        trimmed); FELICES50 is stored, anything else removes the stored
        coupon. */
    method SubmitCoupon(input: string) returns (applied: bool)
      modifies this
      ensures applied <==> ToUpper(input) == CouponCode
      ensures cuponActivo == (if applied then Some(CouponCode) else None)
      ensures carro == old(carro) && usuarioActual == old(usuarioActual)
      ensures descuentos == old(descuentos) && events == old(events)
    {
      var cupon := ToUpper(input);
      if cupon == CouponCode {
        cuponActivo := Some(CouponCode);
        applied := true;
      } else {
        cuponActivo := None;
        applied := false;
      }
    }

    /** The pay button (`handlePagar`). An empty cart is refused first, then a
        missing user id; neither sends anything. Otherwise the order built
        from the cart and the current total is sent, and `response` is how
        the call ends. Success removes the cart and the coupon; a failure
        leaves both as they were. The cart page only renders when the cart
        and the user records parse. */
    method Pay(response: Outcome<string>) returns (r: PayResult, sent: Option<Order>)
      requires CartReadable() && !usuarioActual.Unparsable?
      modifies this
      ensures ReadCart(old(carro)) == [] ==> r == EmptyCart && sent == None
      ensures ReadCart(old(carro)) != [] && LoggedInId(ParsedUser(old(usuarioActual))).None? ==>
                r == NotLoggedIn && sent == None
      ensures sent.None? ==> carro == old(carro) && cuponActivo == old(cuponActivo) && events == old(events)
      ensures sent.Some? <==> ReadCart(old(carro)) != [] && LoggedInId(ParsedUser(old(usuarioActual))).Some?
      ensures sent.Some? ==>
                sent.value == BuildOrder(ReadCart(old(carro)),
                                         LoggedInId(ParsedUser(old(usuarioActual))).value,
                                         ComputeTotals(ReadCart(old(carro)), old(cuponActivo)).total)
      ensures sent.Some? && response.Ok? ==>
                r == Paid(response.body) && carro == Absent && cuponActivo == None
      ensures sent.Some? && !response.Ok? ==>
                r == PaymentFailed(PaymentErrorMessage(response))
                && carro == old(carro) && cuponActivo == old(cuponActivo)
      ensures sent.Some? ==> events == old(events) + [StorageChanged]
      ensures usuarioActual == old(usuarioActual) && descuentos == old(descuentos)
    {
      var c := ReadCart(carro);
      if c == [] {
        return EmptyCart, None;
      }
      var idUsuario := LoggedInId(ParsedUser(usuarioActual));
      if idUsuario.None? {
        return NotLoggedIn, None;
      }
      var totals := ComputeTotals(c, cuponActivo);
      var pedido := BuildOrder(c, idUsuario.value, totals.total);
      sent := Some(pedido);
      if response.Ok? {
        carro := Absent;
        cuponActivo := None;
        r := Paid(response.body);
      } else {
        r := PaymentFailed(PaymentErrorMessage(response));
      }
      events := events + [StorageChanged];
    }

    /** `handleLogout`: `sessionStorage.clear()` forgets the cart, the user,
        the coupon and the discount flags. */
    method Logout()
      modifies this
      ensures carro == Absent && usuarioActual == Absent && cuponActivo == None
      ensures descuentos == NoDiscounts
      ensures events == old(events) + [StorageChanged]
    {
      carro := Absent;
      usuarioActual := Absent;
      cuponActivo := None;
      descuentos := NoDiscounts;
      events := events + [StorageChanged];
    }

    /** The session write shared by login, registration and the settings
        page: store the user record, then announce it. */
    method SaveSession(u: User)
      modifies this
      ensures usuarioActual == Present(u)
      ensures carro == old(carro) && cuponActivo == old(cuponActivo) && descuentos == old(descuentos)
      ensures events == old(events) + [StorageChanged]
    {
      usuarioActual := Present(u);
      events := events + [StorageChanged];
    }
  }
}
