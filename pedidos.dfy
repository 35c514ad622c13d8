/**
  The customer's order history: the session check, the list of orders
  sorted in place by descending order number, and the handling of a failed
  request, where 404 means "no orders yet".
 */
module Pedidos {
  import opened Common
  import opened SessionData

  datatype Pedido = Pedido(idPedido: int, estado: string, fecha: string, total: int)

  /** Newest order first: order numbers never increase along the list. */
  predicate SortedDesc(s: seq<Pedido>) {
    forall p, q :: 0 <= p < q < |s| ==> s[p].idPedido >= s[q].idPedido
  }

  /** The first `n` orders are sorted newest first. */
  predicate SortedPrefix(s: seq<Pedido>, n: int)
    requires 0 <= n <= |s|
  {
    forall p, q :: 0 <= p < q < n ==> s[p].idPedido >= s[q].idPedido
  }

  /** The first `i + 1` orders are sorted newest first, except for the order
      at `j`, which is still moving left. */
  predicate SortedExcept(s: seq<Pedido>, i: int, j: int)
    requires 0 <= j <= i < |s|
  {
    forall p, q :: 0 <= p < q <= i && q != j ==> s[p].idPedido >= s[q].idPedido
  }

  /** Exchanging the order at `j` with a smaller one to its left moves the
      exception one place left. */
  lemma InsertStep(s: seq<Pedido>, i: int, j: int)
    requires 0 < j <= i < |s| && SortedExcept(s, i, j)
    requires s[j - 1].idPedido < s[j].idPedido
    ensures SortedExcept(s[j - 1 := s[j]][j := s[j - 1]], i, j - 1)
    ensures multiset(s[j - 1 := s[j]][j := s[j - 1]]) == multiset(s)
  {
    var r := s[j - 1 := s[j]][j := s[j - 1]];
    forall p, q | 0 <= p < q <= i && q != j - 1 ensures r[p].idPedido >= r[q].idPedido {
      if p == j - 1 {
        assert r[p] == s[j];
        if q > j { assert s[j].idPedido >= s[q].idPedido; }
      } else if q == j {
        assert r[q] == s[j - 1];
        if p < j - 1 { assert s[p].idPedido >= s[j - 1].idPedido; }
      }
    }
  }

  /** Once the moving order is no larger than its left neighbour, one more
      order is in place. */
  lemma InsertDone(s: seq<Pedido>, i: int, j: int)
    requires 0 <= j <= i < |s| && SortedExcept(s, i, j)
    requires j == 0 || s[j - 1].idPedido >= s[j].idPedido
    ensures SortedPrefix(s, i + 1)
  {
    forall p, q | 0 <= p < q <= i ensures s[p].idPedido >= s[q].idPedido {
      if q == j && p < j - 1 {
        assert s[p].idPedido >= s[j - 1].idPedido;
      }
    }
  }

  /** `sort((a, b) => b.idPedido - a.idPedido)` on the response array, in
      place: the array ends up sorted newest first and holds the same orders.
      Each order is moved left by adjacent swaps past smaller order numbers. */
  method SortByIdDesc(a: array<Pedido>)
    modifies a
    ensures SortedDesc(a[..])
    ensures multiset(a[..]) == old(multiset(a[..]))
  {
    var i := 0;
    while i < a.Length
      invariant 0 <= i <= a.Length
      invariant SortedPrefix(a[..], i)
      invariant multiset(a[..]) == old(multiset(a[..]))
    {
      var j := i;
      while j > 0 && a[j - 1].idPedido < a[j].idPedido
        invariant 0 <= j <= i
        invariant SortedExcept(a[..], i, j)
        invariant multiset(a[..]) == old(multiset(a[..]))
      {
        InsertStep(a[..], i, j);
        a[j - 1], a[j] := a[j], a[j - 1];
        j := j - 1;
      }
      InsertDone(a[..], i, j);
      i := i + 1;
    }
  }

  const LoadError := "No pudimos cargar tus pedidos. Intenta más tarde."

  datatype OrdersPage =
    | RedirectToLogin
    | Shown(pedidos: seq<Pedido>, error: Option<string>)

  /** `cargarDatos`: with no stored user the visitor is sent to the login page
      and nothing is requested. Otherwise the request for the user's orders
      ends in `response`: on success the orders are shown newest first; a 404
      shows an empty list without an error; any other failure keeps the list
      shown before (`previous`) and reports the error. An unreadable session
      record makes the effect throw, so it is excluded. */
  method CargarDatos(stored: Record<User>, response: Outcome<seq<Pedido>>, previous: seq<Pedido>)
    returns (page: OrdersPage)
    requires !stored.Unparsable?
    ensures page.RedirectToLogin? <==> stored.Absent?
    ensures stored.Present? && response.Ok? ==>
              page.Shown? && page.error.None?
              && SortedDesc(page.pedidos) && multiset(page.pedidos) == multiset(response.body)
    ensures stored.Present? && response.Rejected? && response.status == 404 ==>
              page == Shown([], None)
    ensures stored.Present? && !response.Ok? && !(response.Rejected? && response.status == 404) ==>
              page == Shown(previous, Some(LoadError))
  {
    if stored.Absent? {
      return RedirectToLogin;
    }
    match response
    case Ok(body) =>
      var a := new Pedido[|body|](k requires 0 <= k < |body| => body[k]);
      assert a[..] == body;
      SortByIdDesc(a);
      page := Shown(a[..], None);
    case Rejected(status, _) =>
      page := if status == 404 then Shown([], None) else Shown(previous, Some(LoadError));
    case NoResponse =>
      page := Shown(previous, Some(LoadError));
  }

  /** Two lists sorted newest first that hold the same orders list the same
      order numbers in the same positions, so the order numbers shown do not
      depend on how the server ordered its answer. */
  lemma {:induction false} SortedIdsUnique(s: seq<Pedido>, t: seq<Pedido>)
    requires SortedDesc(s) && SortedDesc(t) && multiset(s) == multiset(t)
    ensures |s| == |t|
    ensures forall k :: 0 <= k < |s| ==> s[k].idPedido == t[k].idPedido
    decreases |s|
  {
    assert |s| == |multiset(s)| == |multiset(t)| == |t|;
    if |s| > 0 {
      var j := HeadIsNewest(s, t[0]);
      var i := HeadIsNewest(t, s[0]);
      // Bring s[0] to the front of t; the order numbers of t do not move.
      assert t[0].idPedido == t[i].idPedido;
      var u := t[0 := t[i]][i := t[0]];
      SwapSameKey(t, 0, i);
      assert u[0] == s[0];
      TailMultiset(s);
      TailMultiset(u);
      assert multiset(s[1..]) == multiset(u[1..]);
      SortedTail(s);
      SortedTail(u);
      SortedIdsUnique(s[1..], u[1..]);
      forall k | 0 < k < |s| ensures s[k].idPedido == t[k].idPedido {
        assert s[k] == s[1..][k - 1] && u[k] == u[1..][k - 1];
      }
    }
  }

  /** The first order of a sorted list has the largest order number, and
      any order of the list sits at some index. */
  lemma HeadIsNewest(s: seq<Pedido>, x: Pedido) returns (i: nat)
    requires SortedDesc(s) && x in multiset(s)
    ensures i < |s| && s[i] == x && s[0].idPedido >= x.idPedido
  {
    assert x in s;
    i :| 0 <= i < |s| && s[i] == x;
  }

  lemma TailMultiset(s: seq<Pedido>)
    requires |s| > 0
    ensures multiset(s[1..]) == multiset(s) - multiset{s[0]}
  {
    assert s == [s[0]] + s[1..];
  }

  lemma SortedTail(s: seq<Pedido>)
    requires |s| > 0 && SortedDesc(s)
    ensures SortedDesc(s[1..])
  {
    forall p, q | 0 <= p < q < |s[1..]| ensures s[1..][p].idPedido >= s[1..][q].idPedido {
      assert s[1..][p] == s[p + 1] && s[1..][q] == s[q + 1];
    }
  }

  /** Exchanging two orders with the same order number keeps every position's
      order number, and so keeps the list sorted and its orders the same. */
  lemma SwapSameKey(t: seq<Pedido>, i: int, k: int)
    requires 0 <= i < |t| && 0 <= k < |t| && t[i].idPedido == t[k].idPedido && SortedDesc(t)
    ensures forall m :: 0 <= m < |t| ==> t[i := t[k]][k := t[i]][m].idPedido == t[m].idPedido
    ensures SortedDesc(t[i := t[k]][k := t[i]])
    ensures multiset(t[i := t[k]][k := t[i]]) == multiset(t)
  {
    var r := t[i := t[k]][k := t[i]];
    forall m | 0 <= m < |t| ensures r[m].idPedido == t[m].idPedido {
    }
    forall p, q | 0 <= p < q < |r| ensures r[p].idPedido >= r[q].idPedido {
      assert r[p].idPedido == t[p].idPedido && r[q].idPedido == t[q].idPedido;
    }
  }
}
