/**
 * The sales screen: an ordered list of sale lines (product, masked quantity, unit price),
 * at most 200 of them, with duplicate-product prevention, derived subtotals and total, a
 * fail-fast validator that names the first offending row, and the request `submit` sends.
 */
module Ventas {
  import opened Wrappers
  import opened Text
  import opened DigitMask
  import opened Models
  import opened Confirm

  const LIMITE_CANTIDAD: nat := 6
  const TOPE_TOTAL: int := 99_999_999
  const MAX_ITEMS: nat := 200
  const MAX_CANTIDAD: int := 999_999
  const MAX_PRECIO: int := 99_999_999

  /** One form row. `producto` is the selected product id, 0 while nothing is selected
      (`Number('')` is 0); `cantidad` is the masked text of the quantity input. */
  datatype Line = Line(producto: int, cantidad: string, precioUnit: int)

  /** `crearLinea`: no product, empty quantity, price 0. */
  const EmptyLine := Line(0, "", 0)

  // ------------------------------------------------------------------ derived values

  /** `subtotal(i)`: the unmasked quantity times the unit price. */
  function Subtotal(l: Line): int {
    Unmask(l.cantidad) * l.precioUnit
  }

  /** `total`: `reduce` over the rows, adding each row's subtotal to the accumulator. */
  function TotalOf(ls: seq<Line>): int
    decreases |ls|
  {
    if ls == [] then 0 else TotalOf(ls[..|ls| - 1]) + Subtotal(ls[|ls| - 1])
  }

  /** Reference definition: the sum of the subtotals, first row first. */
  function SumOfSubtotals(ls: seq<Line>): int
    decreases |ls|
  {
    if ls == [] then 0 else Subtotal(ls[0]) + SumOfSubtotals(ls[1..])
  }

  lemma {:induction false} SumOfSubtotalsSnoc(ls: seq<Line>, l: Line)
    ensures SumOfSubtotals(ls + [l]) == SumOfSubtotals(ls) + Subtotal(l)
    decreases |ls|
  {
    if ls != [] {
      assert (ls + [l])[1..] == ls[1..] + [l];
      SumOfSubtotalsSnoc(ls[1..], l);
    }
  }

  /** The running total equals the sum of the row subtotals. */
  lemma {:induction false} TotalIsSumOfSubtotals(ls: seq<Line>)
    ensures TotalOf(ls) == SumOfSubtotals(ls)
    decreases |ls|
  {
    if ls != [] {
      var init := ls[..|ls| - 1];
      TotalIsSumOfSubtotals(init);
      SumOfSubtotalsSnoc(init, ls[|ls| - 1]);
      assert init + [ls[|ls| - 1]] == ls;
    }
  }

  // ------------------------------------------------------------------ validation

  /** The ways `validar` can fail; `row` is the 0-based index, shown 1-based. */
  datatype SaleError =
    | NoLines
    | TooManyLines
    | MissingProduct(row: nat)
    | DuplicateProduct(row: nat)
    | BadQuantity(row: nat)
    | BadPrice(row: nat)
    | BadTotal

  /** The message `validar` returns for each failure. */
  function Describe(e: SaleError): (msg: string)
    ensures msg != []
  {
    match e
    case NoLines => "Debes agregar al menos un producto."
    case TooManyLines => "La venta no puede tener más de 200 ítems."
    case MissingProduct(i) => "Debes seleccionar el producto en la fila #" + NatToString(i + 1) + "."
    case DuplicateProduct(i) => "El producto de la fila #" + NatToString(i + 1) + " ya fue seleccionado en otra fila."
    case BadQuantity(i) => "La cantidad de la fila #" + NatToString(i + 1) + " debe estar entre 1 y 999.999."
    case BadPrice(i) => "El precio unitario de la fila #" + NatToString(i + 1) + " debe estar entre 1 y 99.999.999."
    case BadTotal => "El total de la venta no puede superar $ 99.999.999."
  }

  /** `''` when the sale is acceptable, the failure's message otherwise. */
  function Message(v: Option<SaleError>): string {
    match v
    case None => ""
    case Some(e) => Describe(e)
  }

  /** The product ids of the given rows. */
  function ProductsOf(ls: seq<Line>): set<int> {
    set j | 0 <= j < |ls| :: ls[j].producto
  }

  /** The checks of row `i`, given that every earlier row passed its own (so the earlier
      rows' products are exactly what `seen` holds). */
  function RowError(ls: seq<Line>, i: nat): Option<SaleError>
    requires i < |ls|
  {
    var l := ls[i];
    if l.producto == 0 then Some(MissingProduct(i))
    else if l.producto in ProductsOf(ls[..i]) then Some(DuplicateProduct(i))
    else if !(1 <= Unmask(l.cantidad) <= MAX_CANTIDAD) then Some(BadQuantity(i))
    else if !(1 <= l.precioUnit <= MAX_PRECIO) then Some(BadPrice(i))
    else None
  }

  /** The first failing row from `k` on. */
  function FirstRowError(ls: seq<Line>, k: nat): Option<SaleError>
    requires k <= |ls|
    decreases |ls| - k
  {
    if k == |ls| then None
    else if RowError(ls, k).Some? then RowError(ls, k)
    else FirstRowError(ls, k + 1)
  }

  /** What `validar` decides, rule by rule in its order. */
  function Validation(ls: seq<Line>): Option<SaleError> {
    if |ls| <= 0 then Some(NoLines)
    else if |ls| > MAX_ITEMS then Some(TooManyLines)
    else if FirstRowError(ls, 0).Some? then FirstRowError(ls, 0)
    else if !(1 <= TotalOf(ls) <= TOPE_TOTAL) then Some(BadTotal)
    else None
  }

  /** A row on its own: a product chosen, quantity and price in range. */
  predicate RowValid(l: Line) {
    l.producto != 0 && 1 <= Unmask(l.cantidad) <= MAX_CANTIDAD && 1 <= l.precioUnit <= MAX_PRECIO
  }

  /** No product appears in two rows. */
  predicate DistinctProducts(ls: seq<Line>) {
    forall a, b :: 0 <= a < b < |ls| ==> ls[a].producto != ls[b].producto
  }

  /** Declarative statement of an acceptable sale. */
  predicate SaleIsValid(ls: seq<Line>) {
    1 <= |ls| <= MAX_ITEMS &&
    (forall i :: 0 <= i < |ls| ==> RowValid(ls[i])) &&
    DistinctProducts(ls) &&
    1 <= TotalOf(ls) <= TOPE_TOTAL
  }

  lemma InProductsOf(ls: seq<Line>, i: nat)
    requires i < |ls|
    ensures ls[i].producto in ProductsOf(ls[..i]) <==> exists j :: 0 <= j < i && ls[j].producto == ls[i].producto
  {
    if exists j :: 0 <= j < i && ls[j].producto == ls[i].producto {
      var j :| 0 <= j < i && ls[j].producto == ls[i].producto;
      assert ls[..i][j] == ls[j];
    }
  }

  lemma {:induction false} FirstRowErrorNone(ls: seq<Line>, k: nat)
    requires k <= |ls|
    ensures FirstRowError(ls, k).None? <==> forall i :: k <= i < |ls| ==> RowError(ls, i).None?
    decreases |ls| - k
  {
    if k < |ls| { FirstRowErrorNone(ls, k + 1); }
  }

  lemma AllRowsPass(ls: seq<Line>)
    ensures (forall i :: 0 <= i < |ls| ==> RowError(ls, i).None?) <==>
            (forall i :: 0 <= i < |ls| ==> RowValid(ls[i])) && DistinctProducts(ls)
  {
    forall i | 0 <= i < |ls| { InProductsOf(ls, i); }
    if forall i :: 0 <= i < |ls| ==> RowError(ls, i).None? {
      forall i | 0 <= i < |ls| ensures RowValid(ls[i]) {
        assert RowError(ls, i).None?;
      }
      forall a, b | 0 <= a < b < |ls| ensures ls[a].producto != ls[b].producto {
        assert RowError(ls, b).None?;
      }
    }
    if (forall i :: 0 <= i < |ls| ==> RowValid(ls[i])) && DistinctProducts(ls) {
      forall i | 0 <= i < |ls| ensures RowError(ls, i).None? {
        assert RowValid(ls[i]);
        assert forall j :: 0 <= j < i ==> ls[j].producto != ls[i].producto;
      }
    }
  }

  /** `validar` accepts exactly the sales with one to 200 rows, every row complete and in
      range, no product twice, and a total between 1 and 99,999,999. */
  lemma ValidationAcceptsIff(ls: seq<Line>)
    ensures Validation(ls).None? <==> SaleIsValid(ls)
  {
    FirstRowErrorNone(ls, 0);
    AllRowsPass(ls);
  }

  /** `validar` returns the empty string exactly for an acceptable sale. */
  lemma MessageEmptyIff(ls: seq<Line>)
    ensures Message(Validation(ls)) == "" <==> SaleIsValid(ls)
  {
    ValidationAcceptsIff(ls);
  }

  /** The reported row is the first bad one: every earlier row is complete, in range and
      distinct, and the reported row breaks the reported rule. A duplicate is reported at
      the later of the two rows. */
  lemma {:induction false} FirstRowErrorIsFirst(ls: seq<Line>, k: nat)
    requires k <= |ls| && FirstRowError(ls, k).Some?
    ensures var e := FirstRowError(ls, k).value;
      (e.MissingProduct? || e.DuplicateProduct? || e.BadQuantity? || e.BadPrice?) &&
      k <= e.row < |ls| && RowError(ls, e.row) == Some(e) &&
      forall i :: k <= i < e.row ==> RowError(ls, i).None?
    decreases |ls| - k
  {
    if RowError(ls, k).None? { FirstRowErrorIsFirst(ls, k + 1); }
  }

  lemma PassingPrefix(ls: seq<Line>, r: nat)
    requires r <= |ls|
    requires forall i :: 0 <= i < r ==> RowError(ls, i).None?
    ensures forall i :: 0 <= i < r ==> RowValid(ls[i])
    ensures DistinctProducts(ls[..r])
  {
    var prefix := ls[..r];
    forall i | 0 <= i < r ensures RowError(prefix, i) == RowError(ls, i) {
      assert prefix[i] == ls[i];
      assert prefix[..i] == ls[..i];
    }
    AllRowsPass(prefix);
    forall i | 0 <= i < r ensures RowValid(ls[i]) {
      assert RowValid(prefix[i]);
    }
  }

  lemma ValidationReportsFirstBadRow(ls: seq<Line>)
    requires 1 <= |ls| <= MAX_ITEMS && FirstRowError(ls, 0).Some?
    ensures Validation(ls).Some?
    ensures var e := Validation(ls).value;
      (e.MissingProduct? || e.DuplicateProduct? || e.BadQuantity? || e.BadPrice?) &&
      e.row < |ls| &&
      (forall i :: 0 <= i < e.row ==> RowValid(ls[i])) &&
      DistinctProducts(ls[..e.row]) &&
      (e.MissingProduct? ==> ls[e.row].producto == 0) &&
      (e.DuplicateProduct? ==> exists j :: 0 <= j < e.row && ls[j].producto == ls[e.row].producto) &&
      (e.BadQuantity? ==> !(1 <= Unmask(ls[e.row].cantidad) <= MAX_CANTIDAD)) &&
      (e.BadPrice? ==> !(1 <= ls[e.row].precioUnit <= MAX_PRECIO))
  {
    var e := FirstRowError(ls, 0).value;
    assert Validation(ls) == Some(e);
    FirstRowErrorIsFirst(ls, 0);
    InProductsOf(ls, e.row);
    PassingPrefix(ls, e.row);
  }

  // ------------------------------------------------------------------ payload

  /** The `productos` array `submit` sends: id, unmasked quantity and price of each row. */
  function Payload(ls: seq<Line>): (items: seq<SaleItem>)
    ensures |items| == |ls|
  {
    seq(|ls|, k requires 0 <= k < |ls| => SaleItem(ls[k].producto, Unmask(ls[k].cantidad), ls[k].precioUnit))
  }

  function ItemsTotal(items: seq<SaleItem>): int
    decreases |items|
  {
    if items == [] then 0
    else ItemsTotal(items[..|items| - 1]) + items[|items| - 1].cantidad * items[|items| - 1].precioUnitario
  }

  lemma {:induction false} PayloadTotal(ls: seq<Line>)
    ensures ItemsTotal(Payload(ls)) == TotalOf(ls)
    decreases |ls|
  {
    if ls != [] {
      var init := ls[..|ls| - 1];
      PayloadTotal(init);
      assert Payload(ls)[..|ls| - 1] == Payload(init);
    }
  }

  /** What an accepted sale sends: one item per row, every id nonzero and different, every
      quantity in [1, 999999], every price in [1, 99999999], and items whose amounts add up
      to the total shown, itself within [1, 99999999]. */
  lemma PayloadOfValidSale(ls: seq<Line>)
    requires Validation(ls).None?
    ensures var items := Payload(ls);
      1 <= |items| <= MAX_ITEMS &&
      (forall k :: 0 <= k < |items| ==>
        items[k].idProducto != 0 && 1 <= items[k].cantidad <= MAX_CANTIDAD &&
        1 <= items[k].precioUnitario <= MAX_PRECIO) &&
      (forall a, b :: 0 <= a < b < |items| ==> items[a].idProducto != items[b].idProducto) &&
      1 <= ItemsTotal(items) <= TOPE_TOTAL
  {
    ValidationAcceptsIff(ls);
    PayloadTotal(ls);
  }

  /** `editar`: the rows built from a stored sale, the quantity shown masked. */
  function LinesFromDetail(items: seq<SaleItem>): (ls: seq<Line>)
    ensures |ls| == |items|
  {
    seq(|items|, k requires 0 <= k < |items| =>
      Line(items[k].idProducto, DisplayNumber(NatToString(items[k].cantidad)), items[k].precioUnitario))
  }

  /** Loading a stored sale for editing and sending it back unchanged reproduces its items. */
  lemma EditThenSubmitRoundTrip(items: seq<SaleItem>)
    ensures Payload(LinesFromDetail(items)) == items
  {
    forall k | 0 <= k < |items| ensures Payload(LinesFromDetail(items))[k] == items[k] {
      DisplayNatRoundTrip(items[k].cantidad);
    }
  }

  // ------------------------------------------------------------------ product selection

  /** Some row other than `i` holds the nonzero product `id`. */
  predicate Occupied(ls: seq<Line>, id: int, i: int) {
    exists j :: 0 <= j < |ls| && j != i && ls[j].producto != 0 && ls[j].producto == id
  }

  /** `productos.find(...)?.precio_unitario ?? 0`: the price of the first catalogue entry
      with that id, 0 when there is none. */
  function PriceOf(catalog: seq<Producto>, id: int): (price: int)
    ensures (exists k :: 0 <= k < |catalog| && catalog[k].idProducto == id &&
               price == catalog[k].precioUnitario.GetOr(0) &&
               forall j :: 0 <= j < k ==> catalog[j].idProducto != id) ||
            ((forall k :: 0 <= k < |catalog| ==> catalog[k].idProducto != id) && price == 0)
    decreases |catalog|
  {
    if catalog == [] then 0
    else if catalog[0].idProducto == id then catalog[0].precioUnitario.GetOr(0)
    else
      var p := PriceOf(catalog[1..], id);
      assert forall k :: 1 <= k < |catalog| ==> catalog[1..][k - 1] == catalog[k];
      p
  }

  /** The rows after `onProductoChange(i)`: a product already used elsewhere is reverted to
      no product and price 0; otherwise the row takes the catalogue price. Only row `i`
      changes, its quantity stays, and afterwards its product is unused elsewhere. */
  function AfterProductoChange(ls: seq<Line>, i: nat, catalog: seq<Producto>): (r: seq<Line>)
    requires i < |ls|
    ensures |r| == |ls|
    ensures forall j :: 0 <= j < |ls| && j != i ==> r[j] == ls[j]
    ensures r[i].cantidad == ls[i].cantidad
    ensures Occupied(ls, ls[i].producto, i) ==> r[i].producto == 0 && r[i].precioUnit == 0
    ensures !Occupied(ls, ls[i].producto, i) ==>
      r[i].producto == ls[i].producto && r[i].precioUnit == PriceOf(catalog, ls[i].producto)
    ensures !Occupied(r, r[i].producto, i)
  {
    var l := ls[i];
    if Occupied(ls, l.producto, i) then ls[i := Line(0, l.cantidad, 0)]
    else ls[i := Line(l.producto, l.cantidad, PriceOf(catalog, l.producto))]
  }

  /** With the other rows already distinct, a product change leaves all rows distinct
      (ignoring rows with no product). */
  lemma ProductoChangeKeepsDistinct(ls: seq<Line>, i: nat, catalog: seq<Producto>)
    requires i < |ls|
    requires forall a, b :: 0 <= a < b < |ls| && a != i && b != i && ls[a].producto != 0 ==>
      ls[a].producto != ls[b].producto
    ensures var r := AfterProductoChange(ls, i, catalog);
      forall a, b :: 0 <= a < b < |r| && r[a].producto != 0 ==> r[a].producto != r[b].producto
  {
    var r := AfterProductoChange(ls, i, catalog);
    forall a, b | 0 <= a < b < |r| && r[a].producto != 0 ensures r[a].producto != r[b].producto {
      if a == i || b == i {
        assert !Occupied(r, r[i].producto, i);
      }
    }
  }

  // ------------------------------------------------------------------ the component

  datatype SaleRequest =
    | Create(items: seq<SaleItem>)
    | Update(id: int, items: seq<SaleItem>)

  class SaleForm {
    var lineas: seq<Line>
    var productos: seq<Producto>
    var okMsg: string
    var errorMsg: string
    var saving: bool
    var editando: bool
    var editId: Option<int>
    var confirm: Modal<int>

    /** A fresh screen after `ngOnInit`: one empty row, nothing loaded yet. */
    constructor ()
      ensures lineas == [EmptyLine] && productos == []
      ensures okMsg == "" && errorMsg == "" && !saving && !editando && editId.None?
      ensures confirm == Closed()
    {
      lineas := [EmptyLine];
      productos := [];
      okMsg, errorMsg := "", "";
      saving, editando := false, false;
      editId := None;
      confirm := Closed();
    }

    /** The catalogue as `loadProductos` stores it. */
    method LoadProductos(rows: seq<Producto>)
      modifies this
      ensures productos == rows
      ensures lineas == old(lineas) && okMsg == old(okMsg) && errorMsg == old(errorMsg)
      ensures saving == old(saving) && editando == old(editando) && editId == old(editId)
      ensures confirm == old(confirm)
    {
      productos := rows;
    }

    method ShowOk(msg: string)
      modifies this
      ensures okMsg == msg && errorMsg == ""
      ensures lineas == old(lineas) && productos == old(productos)
      ensures saving == old(saving) && editando == old(editando) && editId == old(editId)
      ensures confirm == old(confirm)
    {
      okMsg, errorMsg := msg, "";
    }

    method ShowError(msg: string)
      modifies this
      ensures errorMsg == msg && okMsg == ""
      ensures lineas == old(lineas) && productos == old(productos)
      ensures saving == old(saving) && editando == old(editando) && editId == old(editId)
      ensures confirm == old(confirm)
    {
      errorMsg, okMsg := msg, "";
    }

    /** `agregarLinea`: appends an empty row unless there are already 200. */
    method AgregarLinea()
      modifies this
      ensures |old(lineas)| >= MAX_ITEMS ==> lineas == old(lineas)
      ensures |old(lineas)| < MAX_ITEMS ==> lineas == old(lineas) + [EmptyLine]
      ensures |old(lineas)| <= MAX_ITEMS ==> |lineas| <= MAX_ITEMS
      ensures productos == old(productos) && okMsg == old(okMsg) && errorMsg == old(errorMsg)
      ensures saving == old(saving) && editando == old(editando) && editId == old(editId)
      ensures confirm == old(confirm)
    {
      if |lineas| >= MAX_ITEMS { return; }
      lineas := lineas + [EmptyLine];
    }

    /** `eliminarLinea(i)`: removes row `i`; an index past the end removes nothing. */
    method EliminarLinea(i: nat)
      modifies this
      ensures i < |old(lineas)| ==> lineas == old(lineas)[..i] + old(lineas)[i + 1..]
      ensures i >= |old(lineas)| ==> lineas == old(lineas)
      ensures productos == old(productos) && okMsg == old(okMsg) && errorMsg == old(errorMsg)
      ensures saving == old(saving) && editando == old(editando) && editId == old(editId)
      ensures confirm == old(confirm)
    {
      if i < |lineas| {
        lineas := lineas[..i] + lineas[i + 1..];
      }
    }

    /** `getSelectedIds(exceptIndex)`: the nonzero products of every row but `exceptIndex`. */
    method GetSelectedIds(exceptIndex: Option<int>) returns (ids: set<int>)
      ensures ids == set j | 0 <= j < |lineas| && Some(j) != exceptIndex && lineas[j].producto != 0 :: lineas[j].producto
    {
      ids := {};
      var idx := 0;
      while idx < |lineas|
        invariant 0 <= idx <= |lineas|
        invariant ids == set j | 0 <= j < idx && Some(j) != exceptIndex && lineas[j].producto != 0 :: lineas[j].producto
      {
        var id := lineas[idx].producto;
        if Some(idx) != exceptIndex && id != 0 {
          ids := ids + {id};
        }
        idx := idx + 1;
      }
    }

    /** `isProductoOcupado(id, i)`: some other row already holds product `id`. */
    method IsProductoOcupado(idProducto: int, indexActual: int) returns (b: bool)
      ensures b <==> Occupied(lineas, idProducto, indexActual)
    {
      var selected := GetSelectedIds(Some(indexActual));
      b := idProducto in selected;
    }

    /** `onProductoChange(i)`: reverts a product chosen twice, with a message, or copies the
        catalogue price into the row. */
    method OnProductoChange(i: nat)
      requires i < |lineas|
      modifies this
      ensures lineas == AfterProductoChange(old(lineas), i, productos)
      ensures Occupied(old(lineas), old(lineas)[i].producto, i) ==>
        errorMsg == "Este producto ya está seleccionado en otra fila." && okMsg == ""
      ensures !Occupied(old(lineas), old(lineas)[i].producto, i) ==>
        errorMsg == old(errorMsg) && okMsg == old(okMsg)
      ensures productos == old(productos)
      ensures saving == old(saving) && editando == old(editando) && editId == old(editId)
      ensures confirm == old(confirm)
    {
      var idSel := lineas[i].producto;
      var ocupado := IsProductoOcupado(idSel, i);
      if ocupado {
        lineas := lineas[i := Line(0, lineas[i].cantidad, 0)];
        ShowError("Este producto ya está seleccionado en otra fila.");
        return;
      }
      var precio := PriceOf(productos, idSel);
      lineas := lineas[i := Line(idSel, lineas[i].cantidad, precio)];
    }

    /** `onInputMasked(i, 'cantidad', max, ev)`: the masked text goes back to the input
        (returned) and into row `i`'s quantity; nothing else changes. */
    method OnInputMasked(i: nat, max: nat, value: string) returns (shown: string)
      requires i < |lineas|
      modifies this
      ensures shown == WithThousands(ClampDigits(value, max))
      ensures lineas == old(lineas)[i := old(lineas)[i].(cantidad := shown)]
      ensures Unmask(lineas[i].cantidad) == DigitsValue(ClampDigits(value, max)) < Pow10(max)
      ensures productos == old(productos) && okMsg == old(okMsg) && errorMsg == old(errorMsg)
      ensures saving == old(saving) && editando == old(editando) && editId == old(editId)
      ensures confirm == old(confirm)
    {
      var digits := ClampDigits(value, max);
      shown := WithThousands(digits);
      lineas := lineas[i := lineas[i].(cantidad := shown)];
      UnmaskMasked(value, max);
    }

    /** `validar`: the loop over the rows with the `seen` set, then the total. */
    method Validar() returns (msg: string)
      ensures msg == Message(Validation(lineas))
    {
      var n := |lineas|;
      if n <= 0 { return Describe(NoLines); }
      if n > MAX_ITEMS { return Describe(TooManyLines); }
      var seen: set<int> := {};
      var i := 0;
      while i < n
        invariant 0 <= i <= n
        invariant seen == ProductsOf(lineas[..i])
        invariant FirstRowError(lineas, 0) == FirstRowError(lineas, i)
      {
        var g := lineas[i];
        var idp := g.producto;
        var qty := Unmask(g.cantidad);
        var pu := g.precioUnit;
        if idp == 0 {
          assert Validation(lineas) == Some(MissingProduct(i));
          return Describe(MissingProduct(i));
        }
        if idp in seen {
          assert Validation(lineas) == Some(DuplicateProduct(i));
          return Describe(DuplicateProduct(i));
        }
        seen := seen + {idp};
        assert ProductsOf(lineas[..i + 1]) == ProductsOf(lineas[..i]) + {idp} by {
          assert forall j :: 0 <= j < i ==> lineas[..i + 1][j] == lineas[..i][j];
          assert lineas[..i + 1][i] == g;
        }
        if !(1 <= qty <= MAX_CANTIDAD) {
          assert Validation(lineas) == Some(BadQuantity(i));
          return Describe(BadQuantity(i));
        }
        if !(1 <= pu <= MAX_PRECIO) {
          assert Validation(lineas) == Some(BadPrice(i));
          return Describe(BadPrice(i));
        }
        assert RowError(lineas, i).None?;
        i := i + 1;
      }
      var tot := TotalOf(lineas);
      if !(1 <= tot <= TOPE_TOTAL) { return Describe(BadTotal); }
      return "";
    }

    /** `submit`: ignored while a request is in flight; a failed validation shows its
        message with a cross and sends nothing; otherwise `saving` is set and the create or
        update request carries the payload of the rows. */
    method Submit() returns (req: Option<SaleRequest>)
      modifies this
      ensures old(saving) ==> req.None? && okMsg == old(okMsg) && errorMsg == old(errorMsg) && saving
      ensures !old(saving) && Validation(old(lineas)).Some? ==>
        req.None? && !saving && okMsg == "" && errorMsg == "❌ " + Describe(Validation(old(lineas)).value)
      ensures !old(saving) && Validation(old(lineas)).None? ==>
        saving && okMsg == old(okMsg) && errorMsg == old(errorMsg) &&
        req == Some(if old(editando) && old(editId).Some? then Update(old(editId).value, Payload(old(lineas)))
                    else Create(Payload(old(lineas))))
      ensures lineas == old(lineas) && productos == old(productos)
      ensures editando == old(editando) && editId == old(editId) && confirm == old(confirm)
    {
      if saving { return None; }
      var msg := Validar();
      if msg != "" {
        ShowError("❌ " + msg);
        return None;
      }
      var items := Payload(lineas);
      saving := true;
      if editando && editId.Some? {
        req := Some(Update(editId.value, items));
      } else {
        req := Some(Create(items));
      }
    }

    /** `editar`, once the stored sale's detail has arrived: edit mode on, rows replaced. */
    method Editar(idVenta: int, detalle: seq<SaleItem>)
      modifies this
      ensures editando && editId == Some(idVenta)
      ensures lineas == LinesFromDetail(detalle)
      ensures productos == old(productos) && okMsg == old(okMsg) && errorMsg == old(errorMsg)
      ensures saving == old(saving) && confirm == old(confirm)
    {
      editando := true;
      editId := Some(idVenta);
      lineas := LinesFromDetail(detalle);
    }

    method ConfirmarEliminar(id: int)
      modifies this
      ensures confirm == Ask(id)
      ensures lineas == old(lineas) && productos == old(productos)
      ensures okMsg == old(okMsg) && errorMsg == old(errorMsg)
      ensures saving == old(saving) && editando == old(editando) && editId == old(editId)
    {
      confirm := Ask(id);
    }

    method CloseConfirm()
      modifies this
      ensures confirm == Closed()
      ensures lineas == old(lineas) && productos == old(productos)
      ensures okMsg == old(okMsg) && errorMsg == old(errorMsg)
      ensures saving == old(saving) && editando == old(editando) && editId == old(editId)
    {
      confirm := Closed();
    }

    /** `doEliminarConfirmado`: closes the modal and returns the sale to delete, if any. */
    method DoEliminarConfirmado() returns (target: Option<int>)
      modifies this
      ensures (target, confirm) == Confirmed(old(confirm))
      ensures lineas == old(lineas) && productos == old(productos)
      ensures okMsg == old(okMsg) && errorMsg == old(errorMsg)
      ensures saving == old(saving) && editando == old(editando) && editId == old(editId)
    {
      target := confirm.pending;
      CloseConfirm();
    }

    /** `resetForm` (also `cancelarEdicion`): edit mode off and a single empty row. */
    method ResetForm()
      modifies this
      ensures !editando && editId.None? && lineas == [EmptyLine]
      ensures productos == old(productos) && okMsg == old(okMsg) && errorMsg == old(errorMsg)
      ensures saving == old(saving) && confirm == old(confirm)
    {
      editando := false;
      editId := None;
      lineas := [];
      AgregarLinea();
    }
  }
}
