/**
 * The products screen: four masked numeric inputs (price and the three stock levels), the
 * stock rules, the fail-fast checks of `submit` and the body it sends, and the form's
 * edit and reset transitions.
 */
module Productos {
  import opened Wrappers
  import opened Text
  import opened DigitMask
  import opened Models
  import opened Confirm

  const MAX_PRECIO: int := 99_999_999

  /** The form's values. Numeric controls hold `null` (None) until digits are typed; the
      two selects hold the chosen id, 0 while nothing is selected. */
  datatype ProductFields = ProductFields(
    nombre: string,
    descripcion: string,
    precio: Option<int>,
    stockActual: Option<int>,
    stockMinimo: Option<int>,
    stockMaximo: Option<int>,
    unidad: int,
    categoria: int)

  const EmptyFields := ProductFields("", "", None, None, None, None, 0, 0)

  /** The four masked inputs. */
  datatype NumericField = Precio | StockActual | StockMinimo | StockMaximo

  /** The display text of the four masked inputs (`precioMasked`, `stockActualMasked`,
      `stockMinimoMasked`, `stockMaximoMasked`). */
  datatype MaskTexts = MaskTexts(precio: string, stockActual: string, stockMinimo: string, stockMaximo: string)
  {
    function Get(ctrl: NumericField): string {
      match ctrl
      case Precio => precio
      case StockActual => stockActual
      case StockMinimo => stockMinimo
      case StockMaximo => stockMaximo
    }

    function Set(ctrl: NumericField, text: string): (m: MaskTexts)
      ensures m.Get(ctrl) == text
      ensures forall c :: c != ctrl ==> m.Get(c) == Get(c)
    {
      match ctrl
      case Precio => this.(precio := text)
      case StockActual => this.(stockActual := text)
      case StockMinimo => this.(stockMinimo := text)
      case StockMaximo => this.(stockMaximo := text)
    }
  }

  const BlankMasks := MaskTexts("", "", "", "")

  /** The form with control `ctrl` set to `v`. */
  function SetNumber(f: ProductFields, ctrl: NumericField, v: Option<int>): ProductFields {
    match ctrl
    case Precio => f.(precio := v)
    case StockActual => f.(stockActual := v)
    case StockMinimo => f.(stockMinimo := v)
    case StockMaximo => f.(stockMaximo := v)
  }

  // ------------------------------------------------------------------ stock rules

  datatype StockError = MaxNotPositive | ActualBelowMin | ActualAboveMax

  /** `stocksValid` on actual, minimum and maximum stock (a missing value reads as 0). */
  function StocksValid(act: int, min: int, max: int): Option<StockError> {
    if max <= 0 then Some(MaxNotPositive)
    else if act < min then Some(ActualBelowMin)
    else if act > max then Some(ActualAboveMax)
    else None
  }

  /** `isOutOfRange(p)`: below the minimum, or above a positive maximum. */
  predicate IsOutOfRange(p: Producto) {
    var act := p.stockActual.GetOr(0);
    var min := p.stockMinimo.GetOr(0);
    var max := p.stockMaximo.GetOr(0);
    act < min || (max > 0 && act > max)
  }

  /** The stock rules accept exactly a positive maximum with the actual stock between the
      minimum and the maximum, and the failure reported is the first rule broken. */
  lemma StocksValidIff(act: int, min: int, max: int)
    ensures StocksValid(act, min, max).None? <==> 0 < max && min <= act <= max
    ensures StocksValid(act, min, max) == Some(ActualBelowMin) <==> 0 < max && act < min
    ensures StocksValid(act, min, max) == Some(ActualAboveMax) <==> 0 < max && min <= act && max < act
  {
  }

  /** The list highlight and the form rule agree for a positive maximum; a product whose
      maximum is 0 (or missing) is highlighted only when it is below its minimum, although
      the form would not accept it at all. */
  lemma OutOfRangeMatchesStockRules(p: Producto)
    ensures var act, min, max := p.stockActual.GetOr(0), p.stockMinimo.GetOr(0), p.stockMaximo.GetOr(0);
      (max > 0 ==> (IsOutOfRange(p) <==> StocksValid(act, min, max).Some?)) &&
      (max <= 0 ==> (IsOutOfRange(p) <==> act < min) && StocksValid(act, min, max) == Some(MaxNotPositive))
  {
  }

  // ------------------------------------------------------------------ submit checks

  datatype ProductError =
    | NameRequired
    | BadPrice
    | NoUnidad
    | NoCategoria
    | Stock(e: StockError)

  /** The inline message for each failure. */
  function Describe(e: ProductError): string {
    match e
    case NameRequired => "El nombre es obligatorio."
    case BadPrice => "El precio debe estar entre 1 y 99.999.999."
    case NoUnidad => "Debes seleccionar la unidad de medida."
    case NoCategoria => "Debes seleccionar la categoría."
    case Stock(MaxNotPositive) => "El stock máximo debe ser mayor a cero."
    case Stock(ActualBelowMin) => "El stock actual no puede ser menor que el stock mínimo."
    case Stock(ActualAboveMax) => "El stock actual no puede ser mayor que el stock máximo."
  }

  /** The checks `submit` runs before it sets `saving`, in their order. */
  function CheckProduct(f: ProductFields): Option<ProductError> {
    if f.nombre == "" then Some(NameRequired)
    else if !(f.precio.Some? && 1 <= f.precio.value <= MAX_PRECIO) then Some(BadPrice)
    else if f.unidad == 0 then Some(NoUnidad)
    else if f.categoria == 0 then Some(NoCategoria)
    else
      match StocksValid(f.stockActual.GetOr(0), f.stockMinimo.GetOr(0), f.stockMaximo.GetOr(0))
      case Some(e) => Some(Stock(e))
      case None => None
  }

  /** `submit` goes ahead exactly when the name is non-empty, the price is within
      [1, 99999999], both selects are chosen and the stock rules hold. */
  lemma CheckProductAcceptsIff(f: ProductFields)
    ensures CheckProduct(f).None? <==>
      f.nombre != "" && f.precio.Some? && 1 <= f.precio.value <= MAX_PRECIO &&
      f.unidad != 0 && f.categoria != 0 &&
      0 < f.stockMaximo.GetOr(0) && f.stockMinimo.GetOr(0) <= f.stockActual.GetOr(0) <= f.stockMaximo.GetOr(0)
  {
    StocksValidIff(f.stockActual.GetOr(0), f.stockMinimo.GetOr(0), f.stockMaximo.GetOr(0));
  }

  /** The product body `submit` sends. */
  datatype ProductBody = ProductBody(
    nombre: string,
    descripcion: string,
    precio: int,
    stockActual: int,
    stockMinimo: int,
    stockMaximo: int,
    unidad: int,
    categoria: int)

  /** `submit`'s body: name and description trimmed, with inner whitespace runs collapsed
      to one space; numbers as they are (`Number(null)` is 0). */
  function BodyOf(f: ProductFields): ProductBody {
    ProductBody(Normalize(f.nombre), Normalize(f.descripcion), f.precio.GetOr(0),
                f.stockActual.GetOr(0), f.stockMinimo.GetOr(0), f.stockMaximo.GetOr(0),
                f.unidad, f.categoria)
  }

  /** The texts sent have no leading, trailing or doubled whitespace, and keep every
      non-whitespace character of what was typed, in order. */
  lemma BodyTextsNormalized(f: ProductFields)
    ensures WellSpaced(BodyOf(f).nombre) && WellSpaced(BodyOf(f).descripcion)
    ensures RemoveSpaces(BodyOf(f).nombre) == RemoveSpaces(f.nombre)
    ensures RemoveSpaces(BodyOf(f).descripcion) == RemoveSpaces(f.descripcion)
  {
    NormalizeKeepsText(f.nombre);
    NormalizeKeepsText(f.descripcion);
  }

  /** An accepted form sends a price within range and stock levels satisfying the rules.
      The name check looks at the untrimmed text, so a name made only of whitespace passes
      and goes out empty. */
  lemma AcceptedBody(f: ProductFields)
    requires CheckProduct(f).None?
    ensures var b := BodyOf(f);
      1 <= b.precio <= MAX_PRECIO && 0 < b.stockMaximo && b.stockMinimo <= b.stockActual <= b.stockMaximo &&
      b.unidad != 0 && b.categoria != 0 &&
      (b.nombre == [] <==> forall i :: 0 <= i < |f.nombre| ==> IsSpace(f.nombre[i]))
  {
    CheckProductAcceptsIff(f);
  }

  datatype ProductRequest = Post(body: ProductBody) | Put(id: int, body: ProductBody)

  /** The form values `editar` patches in from a product. */
  function FieldsOf(p: Producto): ProductFields {
    ProductFields(p.nombre, p.descripcion.GetOr(""), p.precioUnitario, p.stockActual,
                  p.stockMinimo, p.stockMaximo, p.unidadMedida.GetOr(0), p.categoria.GetOr(0))
  }

  class ProductScreen {
    var form: ProductFields
    var masks: MaskTexts
    var okMsg: string
    var errorMsg: string
    var errorMsgInline: string
    var saving: bool
    var editando: bool
    var editId: Option<int>
    var confirm: Modal<int>

    constructor ()
      ensures form == EmptyFields && masks == BlankMasks
      ensures okMsg == "" && errorMsg == "" && errorMsgInline == ""
      ensures !saving && !editando && editId.None? && confirm == Closed()
    {
      form := EmptyFields;
      masks := BlankMasks;
      okMsg, errorMsg, errorMsgInline := "", "", "";
      saving, editando := false, false;
      editId := None;
      confirm := Closed();
    }

    method ShowOk(m: string)
      modifies this
      ensures okMsg == m && errorMsg == "" && errorMsgInline == ""
      ensures form == old(form) && masks == old(masks)
      ensures saving == old(saving) && editando == old(editando) && editId == old(editId) && confirm == old(confirm)
    {
      okMsg, errorMsg, errorMsgInline := m, "", "";
    }

    method ShowError(m: string)
      modifies this
      ensures errorMsg == m && okMsg == "" && errorMsgInline == ""
      ensures form == old(form) && masks == old(masks)
      ensures saving == old(saving) && editando == old(editando) && editId == old(editId) && confirm == old(confirm)
    {
      errorMsg, okMsg, errorMsgInline := m, "", "";
    }

    method ShowInline(m: string)
      modifies this
      ensures errorMsgInline == m && okMsg == "" && errorMsg == ""
      ensures form == old(form) && masks == old(masks)
      ensures saving == old(saving) && editando == old(editando) && editId == old(editId) && confirm == old(confirm)
    {
      errorMsgInline, okMsg, errorMsg := m, "", "";
    }

    /** `onInputMasked(ctrl, maxLen, ev)`: the targeted input shows the masked digits, its
        control holds their value (null when there are none), and the inline error clears. */
    method OnInputMasked(ctrl: NumericField, maxLen: nat, value: string)
      modifies this
      ensures masks == old(masks).Set(ctrl, MaskInput(value, maxLen).masked)
      ensures form == SetNumber(old(form), ctrl, MaskInput(value, maxLen).control)
      ensures errorMsgInline == ""
      ensures okMsg == old(okMsg) && errorMsg == old(errorMsg)
      ensures saving == old(saving) && editando == old(editando) && editId == old(editId) && confirm == old(confirm)
    {
      var m := MaskInput(value, maxLen);
      masks := masks.Set(ctrl, m.masked);
      form := SetNumber(form, ctrl, m.control);
      errorMsgInline := "";
    }

    /** `submit`: nothing while saving; the first failed check goes to the inline message
        and `saving` stays off; otherwise the messages clear, `saving` turns on and the
        body goes out as an update (editing with an id) or a creation. */
    method Submit() returns (req: Option<ProductRequest>)
      modifies this
      ensures old(saving) ==>
        req.None? && saving && okMsg == old(okMsg) && errorMsg == old(errorMsg) && errorMsgInline == old(errorMsgInline)
      ensures !old(saving) && CheckProduct(old(form)).Some? ==>
        req.None? && !saving && errorMsgInline == Describe(CheckProduct(old(form)).value) &&
        okMsg == "" && errorMsg == ""
      ensures !old(saving) && CheckProduct(old(form)).None? ==>
        saving && okMsg == "" && errorMsg == "" && errorMsgInline == "" &&
        req == Some(if old(editando) && old(editId).Some? then Put(old(editId).value, BodyOf(old(form)))
                    else Post(BodyOf(old(form))))
      ensures form == old(form) && masks == old(masks)
      ensures editando == old(editando) && editId == old(editId) && confirm == old(confirm)
    {
      if saving { return None; }
      var err := CheckProduct(form);
      if err.Some? {
        errorMsgInline, okMsg, errorMsg := Describe(CheckProduct(form).value), "", "";
        return None;
      }
      var body := BodyOf(form);
      saving := true;
      okMsg, errorMsg, errorMsgInline := "", "", "";
      if editando && editId.Some? {
        req := Some(Put(editId.value, body));
      } else {
        req := Some(Post(body));
      }
    }

    /** `editar(p)`: edit mode on, the form patched from `p`, each masked input showing the
        stored number. */
    method Editar(p: Producto)
      modifies this
      ensures editando && editId == Some(p.idProducto)
      ensures form == FieldsOf(p)
      ensures masks == MaskTexts(ShownNumber(p.precioUnitario), ShownNumber(p.stockActual),
                                 ShownNumber(p.stockMinimo), ShownNumber(p.stockMaximo))
      ensures okMsg == old(okMsg) && errorMsg == old(errorMsg) && errorMsgInline == old(errorMsgInline)
      ensures saving == old(saving) && confirm == old(confirm)
    {
      editando := true;
      editId := Some(p.idProducto);
      form := FieldsOf(p);
      masks := MaskTexts(ShownNumber(p.precioUnitario), ShownNumber(p.stockActual),
                         ShownNumber(p.stockMinimo), ShownNumber(p.stockMaximo));
    }

    method ConfirmarEliminar(id: int)
      modifies this
      ensures confirm == Ask(id)
      ensures form == old(form) && masks == old(masks)
      ensures okMsg == old(okMsg) && errorMsg == old(errorMsg) && errorMsgInline == old(errorMsgInline)
      ensures saving == old(saving) && editando == old(editando) && editId == old(editId)
    {
      confirm := Ask(id);
    }

    method CloseConfirm()
      modifies this
      ensures confirm == Closed()
      ensures form == old(form) && masks == old(masks)
      ensures okMsg == old(okMsg) && errorMsg == old(errorMsg) && errorMsgInline == old(errorMsgInline)
      ensures saving == old(saving) && editando == old(editando) && editId == old(editId)
    {
      confirm := Closed();
    }

    /** `doEliminarConfirmado`: closes the modal and returns the product to delete, if any. */
    method DoEliminarConfirmado() returns (target: Option<int>)
      modifies this
      ensures (target, confirm) == Confirmed(old(confirm))
      ensures form == old(form) && masks == old(masks)
      ensures okMsg == old(okMsg) && errorMsg == old(errorMsg) && errorMsgInline == old(errorMsgInline)
      ensures saving == old(saving) && editando == old(editando) && editId == old(editId)
    {
      target := confirm.pending;
      CloseConfirm();
    }

    /** `resetForm` (also `cancelarEdicion`): edit mode off, every control empty, every
        masked input blank. */
    method ResetForm()
      modifies this
      ensures !editando && editId.None?
      ensures form == EmptyFields && masks == BlankMasks
      ensures okMsg == old(okMsg) && errorMsg == old(errorMsg) && errorMsgInline == old(errorMsgInline)
      ensures saving == old(saving) && confirm == old(confirm)
    {
      editando := false;
      editId := None;
      form := EmptyFields;
      masks := BlankMasks;
    }
  }
}
