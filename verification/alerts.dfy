/**
 * Stock alerts built from the product catalogue (`buildAlertsFromProducts`): one pass over
 * the products sets a below-minimum and an above-maximum alert per product into a map keyed
 * `MIN:<id>` / `MAX:<id>`, and the map's values come out sorted by product id.
 *
 * The map is an insertion-ordered sequence of entries (a JavaScript `Map` keeps the
 * position of a key's first `set` and replaces its value on later ones); `Array.sort` is
 * the stable insertion sort `SortById`.
 */
module Alerts {
  import opened Wrappers
  import opened Text
  import opened Models

  const TITLE: string := "Alerta de inventario"
  const MSG_OPEN: string := "El producto \""
  const MIN_CLOSE: string := "\" está por debajo del mínimo configurado."
  const MAX_CLOSE: string := "\" supera el máximo configurado."

  /** The stock numbers read with `?? 0`. */
  function Actual(p: Producto): int { p.stockActual.GetOr(0) }
  function Min(p: Producto): int { p.stockMinimo.GetOr(0) }
  function Max(p: Producto): int { p.stockMaximo.GetOr(0) }

  datatype AlertCode = StockBelowMin | StockAboveMax

  /** The map key: `MIN:<id>` or `MAX:<id>`. */
  datatype AlertKey = MinKey(id: int) | MaxKey(id: int)

  function KeyText(k: AlertKey): string {
    match k
    case MinKey(id) => "MIN:" + IntToString(id)
    case MaxKey(id) => "MAX:" + IntToString(id)
  }

  /** Distinct keys have distinct texts, so keying the map by `AlertKey` is keying it by the
      key strings. */
  lemma KeyTextInjective(k1: AlertKey, k2: AlertKey)
    ensures KeyText(k1) == KeyText(k2) ==> k1 == k2
  {
    if KeyText(k1) == KeyText(k2) {
      assert KeyText(k1)[1] == KeyText(k2)[1];
      assert KeyText(k1)[4..] == IntToString(k1.id);
      assert KeyText(k2)[4..] == IntToString(k2.id);
      IntToStringInjective(k1.id, k2.id);
    }
  }

  /** `meta`: the minimum for a MIN alert, the maximum for a MAX alert, and always the
      actual stock and the product's name. */
  datatype AlertMeta = AlertMeta(min: Option<int>, max: Option<int>, actual: int, nombre: string)

  datatype AlertItem = AlertItem(key: AlertKey, code: AlertCode, productoId: int, title: string,
                                 message: string, meta: AlertMeta)

  function MinAlert(p: Producto): AlertItem {
    AlertItem(MinKey(p.idProducto), StockBelowMin, p.idProducto, TITLE,
              MSG_OPEN + p.nombre + MIN_CLOSE,
              AlertMeta(Some(Min(p)), None, Actual(p), p.nombre))
  }

  function MaxAlert(p: Producto): AlertItem {
    AlertItem(MaxKey(p.idProducto), StockAboveMax, p.idProducto, TITLE,
              MSG_OPEN + p.nombre + MAX_CLOSE,
              AlertMeta(None, Some(Max(p)), Actual(p), p.nombre))
  }

  // ------------------------------------------------------------------ reference meaning

  /** The alert one product raises under key `k`, if any: the MIN alert when its actual
      stock is below its minimum, the MAX alert when it is above its maximum. */
  function AlertFor(p: Producto, k: AlertKey): (r: Option<AlertItem>)
    ensures r.Some? ==> r.value.key == k && r.value.productoId == k.id == p.idProducto
  {
    match k
    case MinKey(id) => if p.idProducto == id && Actual(p) < Min(p) then Some(MinAlert(p)) else None
    case MaxKey(id) => if p.idProducto == id && Actual(p) > Max(p) then Some(MaxAlert(p)) else None
  }

  /** The alert that ends up under key `k`: the one raised by the last product raising one. */
  function Latest(ps: seq<Producto>, k: AlertKey): Option<AlertItem>
    decreases |ps|
  {
    if ps == [] then None
    else if AlertFor(ps[|ps| - 1], k).Some? then AlertFor(ps[|ps| - 1], k)
    else Latest(ps[..|ps| - 1], k)
  }

  /** Key `k` holds an alert iff some product raises one under it. */
  lemma {:induction false} LatestSomeIff(ps: seq<Producto>, k: AlertKey)
    ensures Latest(ps, k).Some? <==> exists i :: 0 <= i < |ps| && AlertFor(ps[i], k).Some?
    decreases |ps|
  {
    if ps != [] {
      var init := ps[..|ps| - 1];
      LatestSomeIff(init, k);
      if exists i :: 0 <= i < |ps| && AlertFor(ps[i], k).Some? {
        var i :| 0 <= i < |ps| && AlertFor(ps[i], k).Some?;
        if i < |init| { assert init[i] == ps[i]; }
      }
      if exists i :: 0 <= i < |init| && AlertFor(init[i], k).Some? {
        var i :| 0 <= i < |init| && AlertFor(init[i], k).Some?;
        assert init[i] == ps[i];
      }
    }
  }

  /** The alert under key `k` is the one the last product raising one produced: a later
      product with the same id replaces an earlier one. */
  lemma {:induction false} LatestIsLastMatch(ps: seq<Producto>, k: AlertKey)
    requires Latest(ps, k).Some?
    ensures exists i ::
      0 <= i < |ps| && Latest(ps, k) == AlertFor(ps[i], k) && (forall j :: i < j < |ps| ==> AlertFor(ps[j], k).None?)
    decreases |ps|
  {
    var n := |ps| - 1;
    if AlertFor(ps[n], k).None? {
      var init := ps[..n];
      LatestIsLastMatch(init, k);
      var i :| 0 <= i < |init| && Latest(init, k) == AlertFor(init[i], k) &&
        forall j :: i < j < |init| ==> AlertFor(init[j], k).None?;
      assert init[i] == ps[i];
      forall j | i < j < |ps| ensures AlertFor(ps[j], k).None? {
        if j < n { assert init[j] == ps[j]; }
      }
    }
  }

  /** The MIN alert for id `id` exists iff some product with that id has actual < min; the
      MAX alert iff some product with that id has actual > max (a missing maximum read as
      0). */
  lemma AlertExistsIff(ps: seq<Producto>, id: int)
    ensures Latest(ps, MinKey(id)).Some? <==>
      exists i :: 0 <= i < |ps| && ps[i].idProducto == id && Actual(ps[i]) < Min(ps[i])
    ensures Latest(ps, MaxKey(id)).Some? <==>
      exists i :: 0 <= i < |ps| && ps[i].idProducto == id && Actual(ps[i]) > ps[i].stockMaximo.GetOr(0)
  {
    LatestSomeIff(ps, MinKey(id));
    LatestSomeIff(ps, MaxKey(id));
  }

  /** A MIN alert carries the minimum and no maximum, a MAX alert the maximum and no
      minimum; both carry the actual stock and name of the product they come from. */
  lemma LatestMeta(ps: seq<Producto>, k: AlertKey)
    requires Latest(ps, k).Some?
    ensures var a := Latest(ps, k).value;
      a.key == k && a.productoId == k.id && a.title == TITLE &&
      exists i :: 0 <= i < |ps| && ps[i].idProducto == k.id &&
        a.meta.actual == Actual(ps[i]) && a.meta.nombre == ps[i].nombre &&
        (k.MinKey? ==> a.code == StockBelowMin && a.meta == AlertMeta(Some(Min(ps[i])), None, Actual(ps[i]), ps[i].nombre)) &&
        (k.MaxKey? ==> a.code == StockAboveMax && a.meta == AlertMeta(None, Some(Max(ps[i])), Actual(ps[i]), ps[i].nombre))
  {
    LatestIsLastMatch(ps, k);
  }

  // ------------------------------------------------------------------ the map

  predicate KeysUnique(u: seq<AlertItem>) {
    forall i, j :: 0 <= i < j < |u| ==> u[i].key != u[j].key
  }

  /** `uniq.get(k)`. */
  function Lookup(u: seq<AlertItem>, k: AlertKey): (r: Option<AlertItem>)
    ensures r.Some? ==> r.value in u && r.value.key == k
    decreases |u|
  {
    if u == [] then None else if u[0].key == k then Some(u[0]) else Lookup(u[1..], k)
  }

  /** `uniq.set(a.key, a)`: the entry with that key is replaced where it stands, or `a` is
      appended when the key is new. */
  function Put(u: seq<AlertItem>, a: AlertItem): (r: seq<AlertItem>)
    ensures a in r && forall x :: x in r ==> x in u || x == a
    decreases |u|
  {
    if u == [] then [a]
    else if u[0].key == a.key then [a] + u[1..]
    else [u[0]] + Put(u[1..], a)
  }

  /** After a `set`, the key maps to the new value and every other key to what it held; the
      keys stay distinct. */
  lemma {:induction false} PutLookup(u: seq<AlertItem>, a: AlertItem)
    requires KeysUnique(u)
    ensures KeysUnique(Put(u, a))
    ensures forall k :: Lookup(Put(u, a), k) == if k == a.key then Some(a) else Lookup(u, k)
    decreases |u|
  {
    if u != [] && u[0].key != a.key {
      var t := u[1..];
      assert KeysUnique(t) by {
        forall i, j | 0 <= i < j < |t| ensures t[i].key != t[j].key {
          assert t[i] == u[i + 1] && t[j] == u[j + 1];
        }
      }
      PutLookup(t, a);
      var r := Put(u, a);
      assert r == [u[0]] + Put(t, a);
      forall i, j | 0 <= i < j < |r| ensures r[i].key != r[j].key {
        if i == 0 {
          assert r[j] in Put(t, a);
          if r[j] != a {
            var m :| 0 <= m < |t| && t[m] == r[j];
            assert t[m] == u[m + 1];
          }
        } else {
          assert r[i] == Put(t, a)[i - 1] && r[j] == Put(t, a)[j - 1];
        }
      }
    }
  }

  /** With distinct keys, every entry is what looking up its own key gives. */
  lemma {:induction false} LookupOwnKey(u: seq<AlertItem>, a: AlertItem)
    requires KeysUnique(u) && a in u
    ensures Lookup(u, a.key) == Some(a)
    decreases |u|
  {
    if u[0] != a {
      var t := u[1..];
      var m :| 0 <= m < |u| && u[m] == a;
      assert m > 0 && t[m - 1] == a;
      assert KeysUnique(t) by {
        forall i, j | 0 <= i < j < |t| ensures t[i].key != t[j].key {
          assert t[i] == u[i + 1] && t[j] == u[j + 1];
        }
      }
      LookupOwnKey(t, a);
    }
  }

  // ------------------------------------------------------------------ the sort

  predicate SortedById(xs: seq<AlertItem>) {
    forall i, j :: 0 <= i < j < |xs| ==> xs[i].productoId <= xs[j].productoId
  }

  /** The alerts of one product id, in their order. */
  function WithId(xs: seq<AlertItem>, id: int): seq<AlertItem>
    decreases |xs|
  {
    if xs == [] then []
    else WithId(xs[..|xs| - 1], id) + (if xs[|xs| - 1].productoId == id then [xs[|xs| - 1]] else [])
  }

  lemma {:induction false} WithIdMembers(xs: seq<AlertItem>, id: int, a: AlertItem)
    ensures a in WithId(xs, id) <==> a in xs && a.productoId == id
    decreases |xs|
  {
    if xs != [] {
      var init := xs[..|xs| - 1];
      WithIdMembers(init, id, a);
      assert xs == init + [xs[|xs| - 1]];
    }
  }

  /** Places `x` after every element whose id is not greater than its own. */
  function Insert(s: seq<AlertItem>, x: AlertItem): (r: seq<AlertItem>)
    ensures |r| == |s| + 1
    ensures forall a :: a in r <==> a in s || a == x
    decreases |s|
  {
    if s == [] then [x]
    else if s[|s| - 1].productoId <= x.productoId then s + [x]
    else
      var r := Insert(s[..|s| - 1], x) + [s[|s| - 1]];
      assert s == s[..|s| - 1] + [s[|s| - 1]];
      r
  }

  /** `sort((a, b) => a.producto_id - b.producto_id)`, a stable sort. */
  function SortById(xs: seq<AlertItem>): (r: seq<AlertItem>)
    ensures |r| == |xs|
    decreases |xs|
  {
    if xs == [] then [] else Insert(SortById(xs[..|xs| - 1]), xs[|xs| - 1])
  }

  lemma {:induction false} InsertSorted(s: seq<AlertItem>, x: AlertItem)
    requires SortedById(s)
    ensures SortedById(Insert(s, x))
    decreases |s|
  {
    if s != [] && s[|s| - 1].productoId > x.productoId {
      var init, l := s[..|s| - 1], s[|s| - 1];
      InsertSorted(init, x);
      var r := Insert(s, x);
      var m := Insert(init, x);
      assert r == m + [l];
      forall i, j | 0 <= i < j < |r| ensures r[i].productoId <= r[j].productoId {
        if j == |r| - 1 {
          assert r[i] in m;
          if r[i] != x {
            var n :| 0 <= n < |init| && init[n] == r[i];
            assert s[n] == r[i];
          }
        } else {
          assert r[i] == m[i] && r[j] == m[j];
        }
      }
    }
  }

  /** Inserting keeps every id's alerts in order, with `x` after the others of its id. */
  lemma {:induction false} InsertWithId(s: seq<AlertItem>, x: AlertItem, id: int)
    ensures WithId(Insert(s, x), id) == WithId(s, id) + (if x.productoId == id then [x] else [])
    decreases |s|
  {
    if s == [] {
      assert [x][..0] == [];
    } else if s[|s| - 1].productoId <= x.productoId {
      assert (s + [x])[..|s|] == s;
    } else {
      var init, l := s[..|s| - 1], s[|s| - 1];
      InsertWithId(init, x, id);
      var m := Insert(init, x);
      assert (m + [l])[..|m|] == m;
    }
  }

  /** The sort is stable: for every id, the alerts with that id keep their relative order
      (so the sort permutes its input). */
  lemma {:induction false} SortWithId(xs: seq<AlertItem>, id: int)
    ensures WithId(SortById(xs), id) == WithId(xs, id)
    decreases |xs|
  {
    if xs != [] {
      SortWithId(xs[..|xs| - 1], id);
      InsertWithId(SortById(xs[..|xs| - 1]), xs[|xs| - 1], id);
    }
  }

  lemma {:induction false} SortSorted(xs: seq<AlertItem>)
    ensures SortedById(SortById(xs))
    decreases |xs|
  {
    if xs != [] {
      SortSorted(xs[..|xs| - 1]);
      InsertSorted(SortById(xs[..|xs| - 1]), xs[|xs| - 1]);
    }
  }

  lemma SortMembers(xs: seq<AlertItem>, a: AlertItem)
    ensures a in SortById(xs) <==> a in xs
  {
    SortWithId(xs, a.productoId);
    WithIdMembers(xs, a.productoId, a);
    WithIdMembers(SortById(xs), a.productoId, a);
  }

  lemma {:induction false} InsertUnique(s: seq<AlertItem>, x: AlertItem)
    requires KeysUnique(s) && forall a :: a in s ==> a.key != x.key
    ensures KeysUnique(Insert(s, x))
    decreases |s|
  {
    var r := Insert(s, x);
    if s == [] {
    } else if s[|s| - 1].productoId <= x.productoId {
      forall i, j | 0 <= i < j < |r| ensures r[i].key != r[j].key {
        if j == |s| { assert r[i] == s[i]; } else { assert r[i] == s[i] && r[j] == s[j]; }
      }
    } else {
      var init, l := s[..|s| - 1], s[|s| - 1];
      InsertUnique(init, x);
      var m := Insert(init, x);
      assert r == m + [l];
      forall i, j | 0 <= i < j < |r| ensures r[i].key != r[j].key {
        if j == |r| - 1 {
          assert r[i] in m;
          if r[i] != x {
            var n :| 0 <= n < |init| && init[n] == r[i];
            assert s[n] == r[i];
          }
        } else {
          assert r[i] == m[i] && r[j] == m[j];
        }
      }
    }
  }

  lemma {:induction false} SortUnique(xs: seq<AlertItem>)
    requires KeysUnique(xs)
    ensures KeysUnique(SortById(xs))
    decreases |xs|
  {
    if xs != [] {
      var init, x := xs[..|xs| - 1], xs[|xs| - 1];
      SortUnique(init);
      forall a | a in SortById(init) ensures a.key != x.key {
        SortMembers(init, a);
        var n :| 0 <= n < |init| && init[n] == a;
        assert xs[n] == a;
      }
      InsertUnique(SortById(init), x);
    }
  }

  /** Distinct keys, each naming its alert's product, leave room for at most two alerts per
      product id. */
  lemma AtMostTwoPerId(xs: seq<AlertItem>)
    requires KeysUnique(xs) && forall i :: 0 <= i < |xs| ==> xs[i].key.id == xs[i].productoId
    ensures forall i, j, l :: 0 <= i < j < l < |xs| ==>
      !(xs[i].productoId == xs[j].productoId && xs[j].productoId == xs[l].productoId)
  {
  }

  // ------------------------------------------------------------------ the build

  /** One pass of the loop: the entries stand for the first `i + 1` products once the
      product's MIN alert (when below its minimum) and then its MAX alert (when above its
      maximum) are set. */
  lemma StepLookup(before: seq<AlertItem>, middle: seq<AlertItem>, after: seq<AlertItem>, ps: seq<Producto>, i: nat)
    requires i < |ps| && KeysUnique(before)
    requires forall k :: Lookup(before, k) == Latest(ps[..i], k)
    requires middle == if Actual(ps[i]) < Min(ps[i]) then Put(before, MinAlert(ps[i])) else before
    requires after == if Actual(ps[i]) > Max(ps[i]) then Put(middle, MaxAlert(ps[i])) else middle
    ensures KeysUnique(after)
    ensures forall k :: Lookup(after, k) == Latest(ps[..i + 1], k)
  {
    var p := ps[i];
    LatestStep(ps, i);
    MaybePut(before, MinAlert(p), Actual(p) < Min(p), middle);
    MaybePut(middle, MaxAlert(p), Actual(p) > Max(p), after);
  }

  /** One more product: its alert under `k`, if it raises one, replaces the earlier one. */
  lemma LatestStep(ps: seq<Producto>, i: nat)
    requires i < |ps|
    ensures forall k ::
      Latest(ps[..i + 1], k) == if AlertFor(ps[i], k).Some? then AlertFor(ps[i], k) else Latest(ps[..i], k)
  {
    assert ps[..i + 1][..i] == ps[..i] && ps[..i + 1][i] == ps[i];
  }

  /** `if (c) uniq.set(a.key, a)`. */
  lemma MaybePut(u: seq<AlertItem>, a: AlertItem, c: bool, v: seq<AlertItem>)
    requires KeysUnique(u) && v == if c then Put(u, a) else u
    ensures KeysUnique(v)
    ensures forall k :: Lookup(v, k) == if c && k == a.key then Some(a) else Lookup(u, k)
  {
    if c { PutLookup(u, a); }
  }

  /** Sorting the finished map keeps exactly the alerts the products call for. */
  lemma SortedEntries(ps: seq<Producto>, uniq: seq<AlertItem>)
    requires KeysUnique(uniq) && forall k :: Lookup(uniq, k) == Latest(ps, k)
    ensures forall a :: a in SortById(uniq) ==> Latest(ps, a.key) == Some(a)
    ensures forall k :: Latest(ps, k).Some? ==> Latest(ps, k).value in SortById(uniq)
  {
    forall a | a in SortById(uniq) ensures Latest(ps, a.key) == Some(a) {
      SortMembers(uniq, a);
      LookupOwnKey(uniq, a);
    }
    forall k | Latest(ps, k).Some? ensures Latest(ps, k).value in SortById(uniq) {
      SortMembers(uniq, Latest(ps, k).value);
    }
  }

  /** Alerts that are all the products' latest alerts name products of the input, and at
      most two of them name the same product. */
  lemma LatestAlertIds(ps: seq<Producto>, alerts: seq<AlertItem>)
    requires KeysUnique(alerts)
    requires forall a :: a in alerts ==> Latest(ps, a.key) == Some(a)
    ensures forall i, j, l :: 0 <= i < j < l < |alerts| ==>
      !(alerts[i].productoId == alerts[j].productoId && alerts[j].productoId == alerts[l].productoId)
    ensures forall a :: a in alerts ==> exists i :: 0 <= i < |ps| && ps[i].idProducto == a.productoId
  {
    forall a | a in alerts ensures exists i :: 0 <= i < |ps| && ps[i].idProducto == a.productoId {
      LatestMeta(ps, a.key);
    }
    forall n | 0 <= n < |alerts| ensures alerts[n].key.id == alerts[n].productoId {
      assert alerts[n] in alerts;
      LatestMeta(ps, alerts[n].key);
    }
    AtMostTwoPerId(alerts);
  }

  /** What `buildAlertsFromProducts` returns for `ps`: alerts sorted by product id, one per
      key, each the alert the last product raising it produced, every such alert present, at
      most two per product id and every id taken from the input. */
  ghost predicate IsAlertList(ps: seq<Producto>, alerts: seq<AlertItem>) {
    SortedById(alerts) && KeysUnique(alerts) &&
    (forall a :: a in alerts ==> Latest(ps, a.key) == Some(a)) &&
    (forall k :: Latest(ps, k).Some? ==> Latest(ps, k).value in alerts) &&
    (forall i, j, l :: 0 <= i < j < l < |alerts| ==>
      !(alerts[i].productoId == alerts[j].productoId && alerts[j].productoId == alerts[l].productoId)) &&
    (forall a :: a in alerts ==> exists i :: 0 <= i < |ps| && ps[i].idProducto == a.productoId)
  }

  /** Sorting the finished map gives the alert list. */
  lemma SortedAlerts(ps: seq<Producto>, uniq: seq<AlertItem>)
    requires KeysUnique(uniq) && forall k :: Lookup(uniq, k) == Latest(ps, k)
    ensures IsAlertList(ps, SortById(uniq))
  {
    SortSorted(uniq);
    SortUnique(uniq);
    SortedEntries(ps, uniq);
    LatestAlertIds(ps, SortById(uniq));
  }

  /** `buildAlertsFromProducts`. */
  method BuildAlertsFromProducts(products: seq<Producto>) returns (alerts: seq<AlertItem>)
    ensures IsAlertList(products, alerts)
  {
    var uniq: seq<AlertItem> := [];
    var i := 0;
    while i < |products|
      invariant 0 <= i <= |products|
      invariant KeysUnique(uniq)
      invariant forall k :: Lookup(uniq, k) == Latest(products[..i], k)
    {
      var p := products[i];
      var id := p.idProducto;
      var min, max, actual := Min(p), Max(p), Actual(p);
      ghost var before := uniq;
      if actual < min {
        uniq := Put(uniq, MinAlert(p));
      }
      ghost var middle := uniq;
      if actual > max {
        uniq := Put(uniq, MaxAlert(p));
      }
      StepLookup(before, middle, uniq, products, i);
      i := i + 1;
    }
    assert products[..i] == products;
    alerts := SortById(uniq);
    SortedAlerts(products, uniq);
  }
}
