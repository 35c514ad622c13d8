/**
  The shopping cart as the pages store it under the `carro` key: an ordered
  list of items keyed by `idProducto`. These are the pure list operations the
  handlers apply to it (`reduce`, `map`, `filter`, `find` and the merge of
  "add to cart"); the stateful handlers live in the `Store` module.
 */
module Cart {
  import opened Common

  /** One cart line: the product's id and name, the unit price with the
      general discount already applied, and the quantity. */
  datatype Item = Item(idProducto: int, nombre: string, precioFinal: nat, cantidad: int)

  function Max(a: int, b: int): int {
    if a >= b then a else b
  }

  // ---------------------------------------------------------------------------
  // Sums over the cart, in the order `reduce` visits the items.

  function SumOf(c: seq<Item>, f: Item -> int): int
  {
    if c == [] then 0 else SumOf(c[..|c| - 1], f) + f(c[|c| - 1])
  }

  function LineTotal(it: Item): int {
    it.precioFinal * it.cantidad
  }

  function Quantity(it: Item): int {
    it.cantidad
  }

  /** `reduce((sum, item) => sum + item.precioFinal * item.cantidad, 0)`. */
  function Subtotal(c: seq<Item>): int {
    SumOf(c, LineTotal)
  }

  /** `reduce((total, item) => total + item.cantidad, 0)`: the number of units
      the header shows next to the cart link. */
  function ItemCount(c: seq<Item>): int {
    SumOf(c, Quantity)
  }

  lemma SumAppend(c: seq<Item>, x: Item, f: Item -> int)
    ensures SumOf(c + [x], f) == SumOf(c, f) + f(x)
  {
    assert (c + [x])[..|c|] == c;
  }

  lemma {:induction false} SumConcat(a: seq<Item>, b: seq<Item>, f: Item -> int)
    ensures SumOf(a + b, f) == SumOf(a, f) + SumOf(b, f)
    decreases |b|
  {
    if b == [] {
      assert a + b == a;
    } else {
      var b' := b[..|b| - 1];
      assert a + b == (a + b') + [b[|b| - 1]];
      SumAppend(a + b', b[|b| - 1], f);
      SumConcat(a, b', f);
    }
  }

  /** Replacing one item changes the sum by the difference of its terms. */
  lemma {:induction false} SumUpdate(c: seq<Item>, k: nat, x: Item, f: Item -> int)
    requires k < |c|
    ensures SumOf(c[k := x], f) == SumOf(c, f) - f(c[k]) + f(x)
    decreases |c|
  {
    var n := |c| - 1;
    if k == n {
      assert c[k := x][..n] == c[..n];
    } else {
      assert c[k := x][..n] == c[..n][k := x];
      SumUpdate(c[..n], k, x, f);
    }
  }

  /** Every term non-negative makes the sum non-negative. */
  lemma {:induction false} SumNonNegative(c: seq<Item>, f: Item -> int)
    requires forall i :: 0 <= i < |c| ==> f(c[i]) >= 0
    ensures SumOf(c, f) >= 0
    decreases |c|
  {
    if c != [] {
      SumNonNegative(c[..|c| - 1], f);
    }
  }

  /** With quantities of at least 1 the subtotal is never negative (prices
      are non-negative whole pesos). */
  lemma SubtotalNonNegative(c: seq<Item>)
    requires PositiveQuantities(c)
    ensures Subtotal(c) >= 0
  {
    forall i | 0 <= i < |c| ensures LineTotal(c[i]) >= 0 {
      assert c[i].cantidad >= 1;
    }
    SumNonNegative(c, LineTotal);
  }

  // ---------------------------------------------------------------------------
  // Invariants the handlers keep.

  predicate HasId(c: seq<Item>, id: int) {
    exists i :: 0 <= i < |c| && c[i].idProducto == id
  }

  predicate UniqueIds(c: seq<Item>) {
    forall i, j :: 0 <= i < j < |c| ==> c[i].idProducto != c[j].idProducto
  }

  predicate PositiveQuantities(c: seq<Item>) {
    forall i :: 0 <= i < |c| ==> c[i].cantidad >= 1
  }

  // ---------------------------------------------------------------------------
  // Quantity change (`map`).

  /** `carro.map(item => item.idProducto === id
        ? { ...item, cantidad: Math.max(1, item.cantidad + change) } : item)` */
  function ChangeQuantity(c: seq<Item>, id: int, change: int): (r: seq<Item>)
    ensures |r| == |c|
    ensures forall i :: 0 <= i < |c| && c[i].idProducto != id ==> r[i] == c[i]
    ensures forall i :: 0 <= i < |c| && c[i].idProducto == id ==>
              r[i] == c[i].(cantidad := Max(1, c[i].cantidad + change))
  {
    seq(|c|, i requires 0 <= i < |c| =>
      if c[i].idProducto == id then c[i].(cantidad := Max(1, c[i].cantidad + change)) else c[i])
  }

  /** No change, however negative, drives a quantity below 1, and the cart
      keeps its ids in the same order. */
  lemma ChangeQuantityKeepsShape(c: seq<Item>, id: int, change: int)
    requires PositiveQuantities(c)
    ensures PositiveQuantities(ChangeQuantity(c, id, change))
    ensures forall i :: 0 <= i < |c| ==> ChangeQuantity(c, id, change)[i].idProducto == c[i].idProducto
    ensures UniqueIds(c) ==> UniqueIds(ChangeQuantity(c, id, change))
  {
  }

  /** Changing the quantity of an id that is not in the cart changes nothing. */
  lemma ChangeQuantityAbsent(c: seq<Item>, id: int, change: int)
    requires !HasId(c, id)
    ensures ChangeQuantity(c, id, change) == c
  {
  }

  /** With unique ids, the subtotal moves by the price of the changed item
      times the change actually applied. */
  lemma ChangeQuantitySubtotal(c: seq<Item>, k: nat, change: int)
    requires UniqueIds(c) && k < |c|
    ensures var q := Max(1, c[k].cantidad + change);
            Subtotal(ChangeQuantity(c, c[k].idProducto, change))
              == Subtotal(c) + c[k].precioFinal * (q - c[k].cantidad)
  {
    var x := c[k].(cantidad := Max(1, c[k].cantidad + change));
    assert ChangeQuantity(c, c[k].idProducto, change) == c[k := x];
    SumUpdate(c, k, x, LineTotal);
  }

  // ---------------------------------------------------------------------------
  // Removal (`filter`).

  /** `carro.filter(item => item.idProducto !== id)` */
  function Remove(c: seq<Item>, id: int): (r: seq<Item>)
    ensures |r| <= |c|
  {
    if c == [] then []
    else (if c[0].idProducto == id then [] else [c[0]]) + Remove(c[1..], id)
  }

  /** The kept items are exactly the items of the cart with another id. */
  lemma {:induction false} RemoveFilters(c: seq<Item>, id: int)
    ensures forall x :: x in Remove(c, id) <==> x in c && x.idProducto != id
    decreases |c|
  {
    if c != [] {
      var h := if c[0].idProducto == id then [] else [c[0]];
      RemoveFilters(c[1..], id);
      assert Remove(c, id) == h + Remove(c[1..], id);
      assert c == [c[0]] + c[1..];
    }
  }

  /** Removal keeps the remaining items in their order: it distributes over
      concatenation. */
  lemma {:induction false} RemoveConcat(a: seq<Item>, b: seq<Item>, id: int)
    ensures Remove(a + b, id) == Remove(a, id) + Remove(b, id)
    decreases |a|
  {
    if a != [] {
      var h := if a[0].idProducto == id then [] else [a[0]];
      assert Remove(a + b, id) == h + Remove(a[1..] + b, id) by {
        assert (a + b)[0] == a[0];
        assert (a + b)[1..] == a[1..] + b;
      }
      assert Remove(a[1..] + b, id) == Remove(a[1..], id) + Remove(b, id) by {
        RemoveConcat(a[1..], b, id);
      }
      assert h + (Remove(a[1..], id) + Remove(b, id)) == (h + Remove(a[1..], id)) + Remove(b, id);
    } else {
      assert a + b == b;
    }
  }

  /** Removing an id that is absent leaves the cart as it was. */
  lemma {:induction false} RemoveAbsent(c: seq<Item>, id: int)
    requires !HasId(c, id)
    ensures Remove(c, id) == c
    decreases |c|
  {
    if c != [] {
      assert !HasId(c[1..], id) by {
        forall i | 0 <= i < |c[1..]| ensures c[1..][i].idProducto != id {
          assert c[1..][i] == c[i + 1];
        }
      }
      RemoveAbsent(c[1..], id);
      assert [c[0]] + c[1..] == c;
    }
  }

  /** No item with the removed id is left. */
  lemma RemoveDropsId(c: seq<Item>, id: int)
    ensures !HasId(Remove(c, id), id)
  {
    var r := Remove(c, id);
    RemoveFilters(c, id);
    forall i | 0 <= i < |r| ensures r[i].idProducto != id {
      assert r[i] in r;
    }
  }

  /** Removing twice is removing once. */
  lemma RemoveIdempotent(c: seq<Item>, id: int)
    ensures Remove(Remove(c, id), id) == Remove(c, id)
  {
    RemoveDropsId(c, id);
    RemoveAbsent(Remove(c, id), id);
  }

  /** With unique ids, removing the id of the item at k cuts out exactly
      that item. */
  lemma RemoveUnique(c: seq<Item>, k: nat)
    requires UniqueIds(c) && k < |c|
    ensures Remove(c, c[k].idProducto) == c[..k] + c[k + 1..]
  {
    var id := c[k].idProducto;
    var before, after := c[..k], c[k + 1..];
    assert c == (before + [c[k]]) + after;
    assert Remove((before + [c[k]]) + after, id) == before + after by {
      UniqueApart(c, k);
      RemoveBetween(before, c[k], after);
    }
  }

  /** With unique ids, the id at k occurs neither before nor after k. */
  lemma UniqueApart(c: seq<Item>, k: nat)
    requires UniqueIds(c) && k < |c|
    ensures !HasId(c[..k], c[k].idProducto) && !HasId(c[k + 1..], c[k].idProducto)
  {
    var before, after := c[..k], c[k + 1..];
    forall i | 0 <= i < |before| ensures before[i].idProducto != c[k].idProducto {
      assert before[i] == c[i];
    }
    forall i | 0 <= i < |after| ensures after[i].idProducto != c[k].idProducto {
      assert after[i] == c[k + 1 + i];
    }
  }

  lemma RemoveBetween(before: seq<Item>, x: Item, after: seq<Item>)
    requires !HasId(before, x.idProducto) && !HasId(after, x.idProducto)
    ensures Remove((before + [x]) + after, x.idProducto) == before + after
  {
    var id := x.idProducto;
    assert Remove(before + [x], id) == before by {
      RemoveConcat(before, [x], id);
      RemoveAbsent(before, id);
      assert Remove([x], id) == [] + Remove([], id);
      assert before + [] == before;
    }
    RemoveConcat(before + [x], after, id);
    RemoveAbsent(after, id);
  }

  /** Removing an item with a unique id takes exactly its units off the count. */
  lemma RemoveItemCount(c: seq<Item>, k: nat)
    requires UniqueIds(c) && k < |c|
    ensures ItemCount(Remove(c, c[k].idProducto)) == ItemCount(c) - c[k].cantidad
  {
    var before, after := c[..k], c[k + 1..];
    RemoveUnique(c, k);
    assert c == (before + [c[k]]) + after;
    SumConcat(before + [c[k]], after, Quantity);
    SumAppend(before, c[k], Quantity);
    SumConcat(before, after, Quantity);
  }

  /** Removal only drops items, so unique ids and positive quantities stay. */
  lemma RemoveKeepsInvariants(c: seq<Item>, id: int)
    requires UniqueIds(c)
    ensures UniqueIds(Remove(c, id))
    ensures PositiveQuantities(c) ==> PositiveQuantities(Remove(c, id))
  {
    var r := Remove(c, id);
    RemoveFilters(c, id);
    if PositiveQuantities(c) {
      forall i | 0 <= i < |r| ensures r[i].cantidad >= 1 {
        assert r[i] in c;
      }
    }
    RemoveSublist(c, id);
  }

  /** The kept items appear in the cart in the same order, so ids that were
      unique stay unique. */
  lemma {:induction false} RemoveSublist(c: seq<Item>, id: int)
    requires UniqueIds(c)
    ensures UniqueIds(Remove(c, id))
    decreases |c|
  {
    if c != [] {
      var tail := c[1..];
      assert UniqueIds(tail) by {
        forall i, j | 0 <= i < j < |tail| ensures tail[i].idProducto != tail[j].idProducto {
          assert tail[i] == c[i + 1] && tail[j] == c[j + 1];
        }
      }
      RemoveSublist(tail, id);
      var rt := Remove(tail, id);
      if c[0].idProducto != id {
        RemoveFilters(tail, id);
        forall j | 0 <= j < |rt| ensures rt[j].idProducto != c[0].idProducto {
          assert rt[j] in tail;
          var k :| 0 <= k < |tail| && tail[k] == rt[j];
          assert c[k + 1] == rt[j];
        }
        ConsUnique(c[0], rt);
        assert Remove(c, id) == [c[0]] + rt;
      } else {
        assert Remove(c, id) == [] + rt;
      }
    }
  }

  lemma ConsUnique(x: Item, r: seq<Item>)
    requires UniqueIds(r)
    requires forall j :: 0 <= j < |r| ==> r[j].idProducto != x.idProducto
    ensures UniqueIds([x] + r)
  {
    var s := [x] + r;
    forall i, j | 0 <= i < j < |s| ensures s[i].idProducto != s[j].idProducto {
      assert s[j] == r[j - 1];
      if i > 0 { assert s[i] == r[i - 1]; }
    }
  }

  // ---------------------------------------------------------------------------
  // Adding (`find`, then merge into the found item or `push`).

  /** `carro.find(item => item.idProducto === id)`, as the index it stops at. */
  function IndexOf(c: seq<Item>, id: int): (r: Option<nat>)
    ensures r.Some? ==> r.value < |c| && c[r.value].idProducto == id
    ensures r.Some? ==> forall j :: 0 <= j < r.value ==> c[j].idProducto != id
    ensures r.None? <==> !HasId(c, id)
  {
    if c == [] then None
    else if c[0].idProducto == id then Some(0)
    else match IndexOf(c[1..], id)
      case None => (assert forall i :: 1 <= i < |c| ==> c[i] == c[1..][i - 1]; None)
      case Some(k) => Some(k + 1)
  }

  /** The cart after "add to cart": an item with the same id gets the added
      units (its name and price stay as they were); otherwise the new item is
      pushed at the end. */
  function AddItem(c: seq<Item>, item: Item): seq<Item>
  {
    match IndexOf(c, item.idProducto)
    case Some(k) => c[k := c[k].(cantidad := c[k].cantidad + item.cantidad)]
    case None => c + [item]
  }

  /** Adding an id already present merges into the first item with that id:
      the length stays, and only its quantity changes. */
  lemma AddExisting(c: seq<Item>, item: Item, k: nat)
    requires k < |c| && c[k].idProducto == item.idProducto
    requires forall j :: 0 <= j < k ==> c[j].idProducto != item.idProducto
    ensures |AddItem(c, item)| == |c|
    ensures AddItem(c, item)[k] == c[k].(cantidad := c[k].cantidad + item.cantidad)
    ensures AddItem(c, item)[k].precioFinal == c[k].precioFinal
    ensures forall j :: 0 <= j < |c| && j != k ==> AddItem(c, item)[j] == c[j]
  {
    var r := IndexOf(c, item.idProducto);
    assert r.Some?;
    assert r.value == k;
  }

  /** Adding a new id appends exactly that item and keeps the others. */
  lemma AddNew(c: seq<Item>, item: Item)
    requires !HasId(c, item.idProducto)
    ensures AddItem(c, item) == c + [item]
  {
  }

  /** A successful add raises the number of units by exactly the amount added. */
  lemma AddItemCount(c: seq<Item>, item: Item)
    ensures ItemCount(AddItem(c, item)) == ItemCount(c) + item.cantidad
  {
    match IndexOf(c, item.idProducto)
    case Some(k) =>
      SumUpdate(c, k, c[k].(cantidad := c[k].cantidad + item.cantidad), Quantity);
    case None =>
      SumAppend(c, item, Quantity);
  }

  /** Adding keeps the ids unique and, for a positive amount, the quantities
      positive. */
  lemma AddItemKeepsInvariants(c: seq<Item>, item: Item)
    requires UniqueIds(c) && PositiveQuantities(c) && item.cantidad >= 1
    ensures UniqueIds(AddItem(c, item)) && PositiveQuantities(AddItem(c, item))
    ensures HasId(AddItem(c, item), item.idProducto)
  {
    var r := AddItem(c, item);
    match IndexOf(c, item.idProducto)
    case Some(k) =>
      assert r[k].idProducto == item.idProducto;
    case None =>
      assert r[|c|] == item;
  }

  /** Adding the same new product twice, with amounts a and b, leaves one line
      with a + b units, at the end. */
  lemma AddTwice(c: seq<Item>, first: Item, second: Item)
    requires !HasId(c, first.idProducto) && second.idProducto == first.idProducto
    ensures AddItem(AddItem(c, first), second) == c + [first.(cantidad := first.cantidad + second.cantidad)]
  {
    var c1 := c + [first];
    assert AddItem(c, first) == c1;
    assert forall j :: 0 <= j < |c| ==> c1[j].idProducto != second.idProducto;
    AddExisting(c1, second, |c|);
    assert AddItem(c1, second) == c + [first.(cantidad := first.cantidad + second.cantidad)];
  }
}
