/**
  Prices in whole Chilean pesos: the per-product discount chosen from the
  stored discount flags, the discounted unit price shown on the product page,
  and the cart totals with the single recognised coupon, FELICES50.
  `Math.round` is modelled exactly on the rational value it is given.
 */
module Pricing {
  import opened Common
  import opened Cart

  /** `Math.round(n / d)` for a positive divisor: the nearest integer, halves
      rounded up. */
  function RoundDiv(n: int, d: int): (r: int)
    requires d > 0
    ensures 2 * d * r <= 2 * n + d < 2 * d * r + 2 * d
  {
    (2 * n + d) / (2 * d)
  }

  /** The bounds in RoundDiv's contract leave only one possible result. */
  lemma RoundDivUnique(n: int, d: int, r: int)
    requires d > 0
    requires 2 * d * r <= 2 * n + d < 2 * d * r + 2 * d
    ensures r == RoundDiv(n, d)
  {
    var q := RoundDiv(n, d);
    if r < q {
      assert 2 * d * q >= 2 * d * (r + 1) by { MultiplyMonotone(2 * d, r + 1, q); }
    } else if r > q {
      assert 2 * d * r >= 2 * d * (q + 1) by { MultiplyMonotone(2 * d, q + 1, r); }
    }
  }

  lemma MultiplyMonotone(k: int, a: int, b: int)
    requires k > 0 && a <= b
    ensures k * a <= k * b
  {
    assert k * b - k * a == k * (b - a);
  }

  // ---------------------------------------------------------------------------
  // Per-product discount (product page).

  /** The three discount keys the product page reads from session storage. */
  datatype Discounts = Discounts(cincuenta: Option<string>, felices50: Option<string>, duoc: Option<string>)

  const NoDiscounts := Discounts(None, None, None)

  /** `obtenerDescuento`: the first flag present, in priority order, decides. */
  function DiscountPercent(d: Discounts): (pct: nat)
    ensures pct == 0 || pct == 10 || pct == 50
    ensures pct == 50 <==> Truthy(d.cincuenta)
    ensures pct == 10 <==> !Truthy(d.cincuenta) && (Truthy(d.felices50) || Truthy(d.duoc))
    ensures pct == 0 <==> !Truthy(d.cincuenta) && !Truthy(d.felices50) && !Truthy(d.duoc)
  {
    if Truthy(d.cincuenta) then 50
    else if Truthy(d.felices50) then 10
    else if Truthy(d.duoc) then 10
    else 0
  }

  /** `Math.round(precio * (1 - pct / 100))`: the discounted unit price. It is
      the nearest peso to the exact discounted price, never above the list
      price, and equal to it when there is no discount. */
  function UnitPrice(precio: nat, pct: nat): (r: nat)
    requires pct <= 100
    ensures 200 * r <= 2 * precio * (100 - pct) + 100 < 200 * r + 200
    ensures r <= precio
    ensures pct == 0 ==> r == precio
  {
    var exact := precio * (100 - pct);
    assert exact <= 100 * precio by { MultiplyMonotone(precio + 1, 100 - pct, 100); }
    RoundDiv(exact, 100)
  }

  // ---------------------------------------------------------------------------
  // Cart totals (cart page).

  const CouponCode := "FELICES50"

  /** `sessionStorage.getItem('cuponActivo') === 'FELICES50'`. */
  predicate CouponActive(cupon: Option<string>) {
    cupon == Some(CouponCode)
  }

  datatype Totals = Totals(subtotal: int, total: int)

  /** `calcularTotales`: the subtotal, and the total after the coupon's 10%,
      rounded. The discount shown is `subtotal - total`. */
  function ComputeTotals(c: seq<Item>, cupon: Option<string>): (t: Totals)
    ensures t.subtotal == Subtotal(c)
    ensures !CouponActive(cupon) ==> t.total == t.subtotal
    ensures CouponActive(cupon) ==> 20 * t.total <= 18 * t.subtotal + 10 < 20 * t.total + 20
    ensures t.subtotal >= 0 ==> 0 <= t.total <= t.subtotal
  {
    var s := Subtotal(c);
    Totals(s, if CouponActive(cupon) then RoundDiv(9 * s, 10) else s)
  }

  /** For a cart whose quantities are all at least 1, the total is never
      negative and never above the subtotal, with or without the coupon. */
  lemma TotalBounds(c: seq<Item>, cupon: Option<string>)
    requires PositiveQuantities(c)
    ensures 0 <= ComputeTotals(c, cupon).total <= ComputeTotals(c, cupon).subtotal
  {
    SubtotalNonNegative(c);
  }

  /** On a subtotal that is a multiple of 10 the coupon takes off exactly a
      tenth: 10000 becomes 9000. */
  lemma CouponTakesATenth(c: seq<Item>, cupon: Option<string>)
    requires CouponActive(cupon) && Subtotal(c) % 10 == 0
    ensures ComputeTotals(c, cupon).total == Subtotal(c) - Subtotal(c) / 10
  {
    var s := Subtotal(c);
    RoundDivUnique(9 * s, 10, s - s / 10);
  }

  /** One item of 5000 pesos, two units: 10000 without the coupon, 9000 with
      it, and a stored value in another casing gives no discount. */
  lemma TwoUnitsExample(it: Item)
    requires it.precioFinal == 5000 && it.cantidad == 2
    ensures ComputeTotals([it], None).total == 10000
    ensures ComputeTotals([it], Some(CouponCode)).total == 9000
    ensures ComputeTotals([it], Some("felices50")).total == 10000
  {
    SumAppend([], it, LineTotal);
    assert [] + [it] == [it];
    assert Subtotal([it]) == LineTotal(it) == 10000;
    CouponTakesATenth([it], Some(CouponCode));
  }
}
