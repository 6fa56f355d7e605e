/**
 * The purchases screen: two masked numeric inputs (quantity and unit cost), the fail-fast
 * checks of `submit` and its body, the date conversions (`dd/mm/yyyy` from the server to
 * the ISO date the date input holds, and today's date in that format), and the message,
 * edit and confirm-modal state.
 */
module Compras {
  import opened Wrappers
  import opened Text
  import opened DigitMask
  import opened Confirm

  const MAX_CANTIDAD: int := 999_999
  const MAX_COSTO: int := 99_999_999

  // ------------------------------------------------------------------ dates

  /** `yyyy-mm-dd` from a year, a 1-based month and a day, month and day padded to two digits. */
  function IsoDate(year: nat, month: nat, day: nat): string {
    NatToString(year) + "-" + PadStart2(NatToString(month)) + "-" + PadStart2(NatToString(day))
  }

  /** `toTodayISO` for the local date given as year, 0-based month (`getMonth()`) and day. */
  function ToTodayISO(year: nat, monthIndex: nat, day: nat): string {
    IsoDate(year, monthIndex + 1, day)
  }

  /** Today's date reads back field by field: splitting at '-' gives the year's digits, then
      the 1-based month and the day, each exactly two digits. */
  lemma ToTodayISOFields(year: nat, monthIndex: nat, day: nat)
    requires monthIndex < 99 && day < 100
    ensures var parts := Split(ToTodayISO(year, monthIndex, day), '-');
      |parts| == 3 &&
      AllDigits(parts[0]) && DigitsValue(parts[0]) == year &&
      |parts[1]| == 2 && AllDigits(parts[1]) && DigitsValue(parts[1]) == monthIndex + 1 &&
      |parts[2]| == 2 && AllDigits(parts[2]) && DigitsValue(parts[2]) == day
  {
    var y, m, d := NatToString(year), PadStart2(NatToString(monthIndex + 1)), PadStart2(NatToString(day));
    PadStart2Value(NatToString(monthIndex + 1));
    PadStart2Value(NatToString(day));
    TwoDigitsAtMost(monthIndex + 1);
    TwoDigitsAtMost(day);
    NoSeparatorInDigits(y, '-');
    NoSeparatorInDigits(m, '-');
    NoSeparatorInDigits(d, '-');
    SplitThree(y, m, d, '-');
  }

  /** Three parts free of the separator, joined by it, split back into those parts. */
  lemma SplitThree(a: string, b: string, c: string, sep: char)
    requires sep !in a && sep !in b && sep !in c
    ensures Split(a + [sep] + b + [sep] + c, sep) == [a, b, c]
  {
    var xs := [a, b, c];
    assert xs[1..] == [b, c] && xs[1..][1..] == [c];
    assert Join([c], [sep]) == c;
    assert Join([b, c], [sep]) == b + [sep] + c;
    assert Join(xs, [sep]) == a + [sep] + (b + [sep] + c);
    assert a + [sep] + b + [sep] + c == a + [sep] + (b + [sep] + c);
    SplitJoin(xs, sep);
  }

  /** A number below 100 has at most two digits. */
  lemma TwoDigitsAtMost(n: nat)
    requires n < 100
    ensures |NatToString(n)| <= 2
  {
    var r := NatToString(n);
    if |r| > 2 && r[0] != '0' {
      DigitsValueAtLeast(r);
    }
  }

  /** A digit string of at least three digits not starting with '0' denotes at least 100. */
  lemma {:induction false} DigitsValueAtLeast(d: string)
    requires AllDigits(d) && |d| >= 3 && d[0] != '0'
    ensures DigitsValue(d) >= 100
    decreases |d|
  {
    var init := d[..|d| - 1];
    assert init[0] == d[0];
    if |d| == 3 {
      assert init[..1] == [d[0]];
      assert DigitsValue(init[..1]) == DigitValue(d[0]) >= 1;
      assert DigitsValue(init) >= 10;
    } else {
      DigitsValueAtLeast(init);
    }
  }

  lemma NoSeparatorInDigits(s: string, sep: char)
    requires AllDigits(s) && !IsDigit(sep)
    ensures sep !in s
  {
  }

  /** `ddmmyyyyToISO`: '' for an empty text or when any of the first three '/'-separated
      parts is missing or empty; otherwise year, month and day rearranged as `yyyy-mm-dd`,
      month and day left-padded with '0' to two characters. */
  function DdmmyyyyToISO(s: string): string {
    if s == "" then ""
    else
      var parts := Split(s, '/');
      if |parts| < 3 || parts[0] == "" || parts[1] == "" || parts[2] == "" then ""
      else parts[2] + "-" + PadStart2(parts[1]) + "-" + PadStart2(parts[0])
  }

  /** Any three non-empty parts without '/' are rearranged and padded. */
  lemma DdmmyyyyToISOParts(dd: string, mm: string, yyyy: string)
    requires dd != "" && mm != "" && yyyy != ""
    requires '/' !in dd && '/' !in mm && '/' !in yyyy
    ensures DdmmyyyyToISO(dd + "/" + mm + "/" + yyyy) == yyyy + "-" + PadStart2(mm) + "-" + PadStart2(dd)
  {
    SplitThree(dd, mm, yyyy, '/');
  }

  /** A server date `d/m/y` converts to the same ISO text `toTodayISO` produces for that
      day, so an edited purchase shows its own date. */
  lemma DdmmyyyyToISOMatchesToday(day: nat, month: nat, year: nat)
    ensures DdmmyyyyToISO(NatToString(day) + "/" + NatToString(month) + "/" + NatToString(year)) ==
            IsoDate(year, month, day)
  {
    var d, m, y := NatToString(day), NatToString(month), NatToString(year);
    NoSeparatorInDigits(d, '/');
    NoSeparatorInDigits(m, '/');
    NoSeparatorInDigits(y, '/');
    DdmmyyyyToISOParts(d, m, y);
  }

  /** A text with fewer than two '/' has no year part and converts to ''. */
  lemma DdmmyyyyToISONoSlash(s: string)
    requires '/' !in s
    ensures DdmmyyyyToISO(s) == ""
  {
    SplitNoSep(s, '/');
  }

  // ------------------------------------------------------------------ the form

  /** The form's values: the selected product (0 while none is chosen), the numeric
      controls (None while empty) and the ISO purchase date. */
  datatype PurchaseFields = PurchaseFields(producto: int, cantidad: Option<int>, costo: Option<int>, fecha: string)

  datatype PurchaseError = NoProducto | BadCantidad | BadCosto | NoFecha

  function Describe(e: PurchaseError): string {
    match e
    case NoProducto => "Debes seleccionar un producto."
    case BadCantidad => "La cantidad debe ser un entero entre 1 y 999.999."
    case BadCosto => "El costo unitario debe ser un entero entre 1 y 99.999.999."
    case NoFecha => "Debes seleccionar la fecha de compra."
  }

  /** The checks `submit` runs before it sets `saving`, in their order. */
  function CheckPurchase(f: PurchaseFields): Option<PurchaseError> {
    if f.producto == 0 then Some(NoProducto)
    else if !(f.cantidad.Some? && 1 <= f.cantidad.value <= MAX_CANTIDAD) then Some(BadCantidad)
    else if !(f.costo.Some? && 1 <= f.costo.value <= MAX_COSTO) then Some(BadCosto)
    else if f.fecha == "" then Some(NoFecha)
    else None
  }

  datatype PurchaseBody = PurchaseBody(productoId: int, cantidad: int, costoUnitario: int, fechaCompra: string)

  function BodyOf(f: PurchaseFields): PurchaseBody {
    PurchaseBody(f.producto, f.cantidad.GetOr(0), f.costo.GetOr(0), f.fecha)
  }

  /** `submit` goes ahead exactly for a chosen product, a quantity in [1, 999999], a unit
      cost in [1, 99999999] and a date; the body then carries those values unchanged. */
  lemma CheckPurchaseAcceptsIff(f: PurchaseFields)
    ensures CheckPurchase(f).None? <==>
      f.producto != 0 && f.cantidad.Some? && 1 <= f.cantidad.value <= MAX_CANTIDAD &&
      f.costo.Some? && 1 <= f.costo.value <= MAX_COSTO && f.fecha != ""
    ensures CheckPurchase(f).None? ==>
      BodyOf(f) == PurchaseBody(f.producto, f.cantidad.value, f.costo.value, f.fecha) &&
      1 <= BodyOf(f).cantidad * BodyOf(f).costoUnitario <= MAX_CANTIDAD * MAX_COSTO
  {
    if CheckPurchase(f).None? {
      var c, k := f.cantidad.value, f.costo.value;
      assert c * k <= MAX_CANTIDAD * k <= MAX_CANTIDAD * MAX_COSTO;
    }
  }

  /** A quantity typed into the masked input (six digits at most) and a cost (eight) can
      only fail the range checks by being empty or zero. */
  lemma MaskedValuesWithinRange(cantidad: string, costo: string)
    ensures var q := MaskInput(cantidad, 6).control;
      q.Some? ==> q.value <= MAX_CANTIDAD
    ensures var k := MaskInput(costo, 8).control;
      k.Some? ==> k.value <= MAX_COSTO
  {
  }

  /** A purchase as the list shows it (`Compra`). */
  datatype Compra = Compra(idCompra: int, producto: int, cantidad: Option<int>, costoUnitario: Option<int>, fecha: string)

  datatype PurchaseRequest = Crear(body: PurchaseBody) | Actualizar(id: int, body: PurchaseBody)

  /** The masked inputs. */
  datatype PurchaseNumber = Cantidad | Costo

  class PurchaseScreen {
    var form: PurchaseFields
    var cantidadMasked: string
    var costoMasked: string
    var okMsg: string
    var errorMsg: string
    var errorMsgInline: string
    var saving: bool
    var editando: bool
    var editId: Option<int>
    var confirm: Modal<int>
    /** `today`, fixed when the screen is created. */
    const today: string

    /** The screen as created on the given local date. */
    constructor (year: nat, monthIndex: nat, day: nat)
      ensures today == ToTodayISO(year, monthIndex, day)
      ensures form == PurchaseFields(0, None, None, today)
      ensures cantidadMasked == "" && costoMasked == ""
      ensures okMsg == "" && errorMsg == "" && errorMsgInline == ""
      ensures !saving && !editando && editId.None? && confirm == Closed()
    {
      today := ToTodayISO(year, monthIndex, day);
      form := PurchaseFields(0, None, None, ToTodayISO(year, monthIndex, day));
      cantidadMasked, costoMasked := "", "";
      okMsg, errorMsg, errorMsgInline := "", "", "";
      saving, editando := false, false;
      editId := None;
      confirm := Closed();
    }

    /** `showOk`: clears both other messages. */
    method ShowOk(msg: string)
      modifies this
      ensures okMsg == msg && errorMsg == "" && errorMsgInline == ""
      ensures form == old(form) && cantidadMasked == old(cantidadMasked) && costoMasked == old(costoMasked)
      ensures saving == old(saving) && editando == old(editando) && editId == old(editId) && confirm == old(confirm)
    {
      okMsg, errorMsg, errorMsgInline := msg, "", "";
    }

    /** `showError`: clears the success message but leaves the inline one as it was. */
    method ShowError(msg: string)
      modifies this
      ensures errorMsg == msg && okMsg == "" && errorMsgInline == old(errorMsgInline)
      ensures form == old(form) && cantidadMasked == old(cantidadMasked) && costoMasked == old(costoMasked)
      ensures saving == old(saving) && editando == old(editando) && editId == old(editId) && confirm == old(confirm)
    {
      errorMsg, okMsg := msg, "";
    }

    /** `showInline`: clears both other messages. */
    method ShowInline(msg: string)
      modifies this
      ensures errorMsgInline == msg && okMsg == "" && errorMsg == ""
      ensures form == old(form) && cantidadMasked == old(cantidadMasked) && costoMasked == old(costoMasked)
      ensures saving == old(saving) && editando == old(editando) && editId == old(editId) && confirm == old(confirm)
    {
      errorMsgInline, okMsg, errorMsg := msg, "", "";
    }

    /** `onInputMasked(ctrl, maxLen, ev)`: the masked digits go back to the input (returned)
        and to the field's mask, the control takes their value (null when there are none),
        and the inline error clears. */
    method OnInputMasked(ctrl: PurchaseNumber, maxLen: nat, value: string) returns (shown: string)
      modifies this
      ensures shown == MaskInput(value, maxLen).masked
      ensures ctrl == Cantidad ==>
        cantidadMasked == shown && costoMasked == old(costoMasked) &&
        form == old(form).(cantidad := MaskInput(value, maxLen).control)
      ensures ctrl == Costo ==>
        costoMasked == shown && cantidadMasked == old(cantidadMasked) &&
        form == old(form).(costo := MaskInput(value, maxLen).control)
      ensures errorMsgInline == "" && okMsg == old(okMsg) && errorMsg == old(errorMsg)
      ensures saving == old(saving) && editando == old(editando) && editId == old(editId) && confirm == old(confirm)
    {
      var m := MaskInput(value, maxLen);
      shown := m.masked;
      if ctrl == Cantidad {
        cantidadMasked := m.masked;
        form := form.(cantidad := m.control);
      } else {
        costoMasked := m.masked;
        form := form.(costo := m.control);
      }
      errorMsgInline := "";
    }

    /** `submit`: nothing while saving; the first failed check goes to the inline message and
        `saving` stays off; otherwise the messages clear, `saving` turns on and the body goes
        out as an update (editing with an id) or a creation. */
    method Submit() returns (req: Option<PurchaseRequest>)
      modifies this
      ensures old(saving) ==>
        req.None? && saving && okMsg == old(okMsg) && errorMsg == old(errorMsg) && errorMsgInline == old(errorMsgInline)
      ensures !old(saving) && CheckPurchase(old(form)).Some? ==>
        req.None? && !saving && errorMsgInline == Describe(CheckPurchase(old(form)).value) &&
        okMsg == "" && errorMsg == ""
      ensures !old(saving) && CheckPurchase(old(form)).None? ==>
        saving && okMsg == "" && errorMsg == "" && errorMsgInline == "" &&
        req == Some(if old(editando) && old(editId).Some? then Actualizar(old(editId).value, BodyOf(old(form)))
                    else Crear(BodyOf(old(form))))
      ensures form == old(form) && cantidadMasked == old(cantidadMasked) && costoMasked == old(costoMasked)
      ensures editando == old(editando) && editId == old(editId) && confirm == old(confirm)
    {
      if saving { return None; }
      var err := CheckPurchase(form);
      if err.Some? {
        errorMsgInline, okMsg, errorMsg := Describe(CheckPurchase(form).value), "", "";
        return None;
      }
      saving := true;
      okMsg, errorMsg, errorMsgInline := "", "", "";
      if editando && editId.Some? {
        req := Some(Actualizar(editId.value, BodyOf(form)));
      } else {
        req := Some(Crear(BodyOf(form)));
      }
    }

    /** `editar(c)`: edit mode on, the form patched from the purchase (its date converted,
        or today's when it does not convert), both masked inputs showing the stored numbers. */
    method Editar(c: Compra)
      modifies this
      ensures editando && editId == Some(c.idCompra)
      ensures form == PurchaseFields(c.producto, c.cantidad, c.costoUnitario,
                                     if DdmmyyyyToISO(c.fecha) != "" then DdmmyyyyToISO(c.fecha) else today)
      ensures cantidadMasked == ShownNumber(c.cantidad) && costoMasked == ShownNumber(c.costoUnitario)
      ensures okMsg == old(okMsg) && errorMsg == old(errorMsg) && errorMsgInline == old(errorMsgInline)
      ensures saving == old(saving) && confirm == old(confirm)
    {
      editando := true;
      editId := Some(c.idCompra);
      var fecha := DdmmyyyyToISO(c.fecha);
      if fecha == "" { fecha := today; }
      form := PurchaseFields(c.producto, c.cantidad, c.costoUnitario, fecha);
      cantidadMasked := ShownNumber(c.cantidad);
      costoMasked := ShownNumber(c.costoUnitario);
    }

    method ConfirmarEliminar(id: int)
      modifies this
      ensures confirm == Ask(id)
      ensures form == old(form) && cantidadMasked == old(cantidadMasked) && costoMasked == old(costoMasked)
      ensures okMsg == old(okMsg) && errorMsg == old(errorMsg) && errorMsgInline == old(errorMsgInline)
      ensures saving == old(saving) && editando == old(editando) && editId == old(editId)
    {
      confirm := Ask(id);
    }

    /** `closeConfirm`: the modal hidden and nothing pending. */
    method CloseConfirm()
      modifies this
      ensures confirm == Closed()
      ensures form == old(form) && cantidadMasked == old(cantidadMasked) && costoMasked == old(costoMasked)
      ensures okMsg == old(okMsg) && errorMsg == old(errorMsg) && errorMsgInline == old(errorMsgInline)
      ensures saving == old(saving) && editando == old(editando) && editId == old(editId)
    {
      confirm := Closed();
    }

    /** `doEliminarConfirmado`: closes the modal and returns the purchase to delete, if any. */
    method DoEliminarConfirmado() returns (target: Option<int>)
      modifies this
      ensures (target, confirm) == Confirmed(old(confirm))
      ensures form == old(form) && cantidadMasked == old(cantidadMasked) && costoMasked == old(costoMasked)
      ensures okMsg == old(okMsg) && errorMsg == old(errorMsg) && errorMsgInline == old(errorMsgInline)
      ensures saving == old(saving) && editando == old(editando) && editId == old(editId)
    {
      target := confirm.pending;
      CloseConfirm();
    }

    /** `resetForm` (also `cancelarEdicion`): edit mode off, the form back to no product, no
        numbers and today's date, both masks blank. */
    method ResetForm()
      modifies this
      ensures !editando && editId.None?
      ensures form == PurchaseFields(0, None, None, today)
      ensures cantidadMasked == "" && costoMasked == ""
      ensures okMsg == old(okMsg) && errorMsg == old(errorMsg) && errorMsgInline == old(errorMsgInline)
      ensures saving == old(saving) && confirm == old(confirm)
    {
      editando := false;
      editId := None;
      form := PurchaseFields(0, None, None, today);
      cantidadMasked, costoMasked := "", "";
    }
  }
}
