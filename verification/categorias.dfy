/**
 * The categories screen: its two message banners, the check chain of `submit`, the body,
 * the edit and confirmation state, and the text shown when the server refuses to delete a
 * category that products still use (HTTP 409).
 */
module Categorias {
  import opened Wrappers
  import opened Text
  import opened NameRules
  import opened Confirm
  import opened Feedback

  const NOMBRE_MAX: nat := 100
  const DESC_MAX: nat := 200

  /** A category as the list holds it; the screen reads every field through `??`. */
  datatype Categoria = Categoria(idCategoria: Option<int>, nombreCategoria: Option<string>,
                                 descripcionCategoria: Option<string>)

  datatype CategoryFields = CategoryFields(nombre: string, descripcion: string)

  /** The checks of `submit`, in their order, on the normalised name and description. */
  function CheckCategory(nombre: string, descripcion: string): Option<NameError> {
    CheckNamed(nombre, descripcion, NOMBRE_MAX, DESC_MAX)
  }

  /** The checks applied to the form as `submit` reads it. */
  function CheckForm(f: CategoryFields): Option<NameError> {
    CheckCategory(Normalize(f.nombre), Normalize(f.descripcion))
  }

  datatype CategoryBody = CategoryBody(nombreCategoria: string, descripcionCategoria: string)

  /** The body: both normalised texts, the description sent even when empty. */
  function BodyOf(f: CategoryFields): CategoryBody {
    CategoryBody(Normalize(f.nombre), Normalize(f.descripcion))
  }

  /** The texts sent are trimmed and single-spaced. */
  lemma BodyOfShape(f: CategoryFields)
    ensures WellSpaced(BodyOf(f).nombreCategoria) && WellSpaced(BodyOf(f).descripcionCategoria)
  {
  }

  datatype CategoryRequest = Crear(body: CategoryBody) | Actualizar(id: int, body: CategoryBody) | Borrar(id: int)

  // ------------------------------------------------------------------ the 409 message

  /** The error body of a refused delete, as far as the screen reads it. An absent or empty
      `message` is the empty text. */
  datatype DeleteConflict = DeleteConflict(
    message: string,
    requiresUpdateProducts: bool,
    productos: Option<seq<string>>,
    totalProductos: Option<int>,
    truncated: bool)

  /** The default text of that 409, written in four pieces so that each piece can be
      checked for line breaks on its own. */
  const DEFAULT_CONFLICT: string := DEFAULT_1 + DEFAULT_2 + DEFAULT_3 + DEFAULT_4
  const DEFAULT_1: string := "No se puede eliminar la categoría "
  const DEFAULT_2: string := "porque está en uso por producto(s). "
  const DEFAULT_3: string := "Debes editar esos productos y "
  const DEFAULT_4: string := "cambiar la categoría antes de eliminarla."

  /** The list as lines: one bullet per product, or a single empty line for no products. */
  function ListLines(productos: seq<string>): (r: seq<string>)
    ensures |r| >= 1
  {
    if productos == [] then [""] else seq(|productos|, i requires 0 <= i < |productos| => Bullet(productos[i]))
  }

  /** The suffix applies when the list was cut and the total is truthy (present and not 0). */
  predicate HasSuffix(err: DeleteConflict) {
    err.truncated && err.totalProductos.Some? && err.totalProductos.value != 0
  }

  const SUFFIX_OPEN := "(Se muestran solo algunos; total: "

  function SuffixLine(total: int): string {
    SUFFIX_OPEN + IntToString(total) + ")"
  }

  /** The message of a 409 that asks to update the products first: the server's text (or
      the default), a blank line, the product list, and the total when the list was cut. */
  function ConflictMessage(err: DeleteConflict): string {
    BaseText(err) + "\n\n" + Lista(err.productos.GetOr([])) + Sufijo(err)
  }

  /** The server's text, or the default when it sent none. */
  function BaseText(err: DeleteConflict): string {
    if err.message != "" then err.message else DEFAULT_CONFLICT
  }

  function Sufijo(err: DeleteConflict): string {
    if HasSuffix(err) then "\n\n" + SuffixLine(err.totalProductos.value) else ""
  }

  /** The message a failed delete shows: the composed text for a 409 asking to update
      products, otherwise the server's message or a generic one. */
  function DeleteErrorMessage(status: int, err: Option<DeleteConflict>): (r: string)
    ensures status == 409 && err.Some? && err.value.requiresUpdateProducts ==> r == ConflictMessage(err.value)
    ensures !(status == 409 && err.Some? && err.value.requiresUpdateProducts) ==>
      r == if err.Some? && err.value.message != "" then err.value.message else "Error eliminando la categoría."
  {
    if status == 409 && err.Some? && err.value.requiresUpdateProducts then ConflictMessage(err.value)
    else if err.Some? && err.value.message != "" then err.value.message
    else "Error eliminando la categoría."
  }

  lemma NoNewlineInInt(i: int)
    ensures '\n' !in IntToString(i)
  {
    var d := NatToString(if i < 0 then -i else i);
    assert forall k :: 0 <= k < |d| ==> d[k] != '\n';
    if i < 0 { assert IntToString(i) == "-" + d; }
  }

  lemma Default1NoBreak() ensures '\n' !in DEFAULT_1 {}
  lemma Default2NoBreak() ensures '\n' !in DEFAULT_2 {}
  lemma Default3NoBreak() ensures '\n' !in DEFAULT_3 {}
  lemma Default4NoBreak() ensures '\n' !in DEFAULT_4 {}

  lemma DefaultHasNoBreak()
    ensures '\n' !in DEFAULT_CONFLICT
  {
    Default1NoBreak();
    Default2NoBreak();
    Default3NoBreak();
    Default4NoBreak();
  }

  lemma ListaAsLines(ps: seq<string>)
    ensures Lista(ps) == Join(ListLines(ps), "\n")
  {
    if ps == [] { assert seq(|ps|, i requires 0 <= i < |ps| => Bullet(ps[i])) == []; }
  }

  lemma ListLinesNoBreak(ps: seq<string>)
    requires forall i :: 0 <= i < |ps| ==> '\n' !in ps[i]
    ensures forall i :: 0 <= i < |ListLines(ps)| ==> '\n' !in ListLines(ps)[i]
  {
    var lines := ListLines(ps);
    forall i | 0 <= i < |lines| ensures '\n' !in lines[i] {
      if ps != [] {
        assert lines[i] == ['•', ' '] + ps[i];
      }
    }
  }

  /** The base text, a blank line, then the list. */
  lemma JoinHead(base: string, lines: seq<string>)
    requires lines != []
    ensures Join([base, ""] + lines, "\n") == base + "\n\n" + Join(lines, "\n")
  {
    JoinConcat([base, ""], lines, "\n");
    assert [base, ""][1..] == [""];
  }

  /** A blank line and one more line at the end. */
  lemma JoinTail(head: seq<string>, last: string)
    requires head != []
    ensures Join(head + ["", last], "\n") == Join(head, "\n") + "\n\n" + last
  {
    JoinConcat(head, ["", last], "\n");
    assert ["", last][1..] == [last];
  }

  lemma SuffixNoBreak(t: int)
    ensures '\n' !in SuffixLine(t)
  {
    NoNewlineInInt(t);
    SuffixOpenNoBreak();
    NotInThree(SUFFIX_OPEN, IntToString(t), ")", '\n');
  }

  lemma SuffixOpenNoBreak() ensures '\n' !in SUFFIX_OPEN {}

  lemma NotInThree(a: string, b: string, c: string, x: char)
    requires x !in a && x !in b && x !in c
    ensures x !in a + b + c
  {
  }

  /** The lines before the suffix: the base text, a blank line and the list. */
  function HeadLines(err: DeleteConflict): seq<string> {
    [BaseText(err), ""] + ListLines(err.productos.GetOr([]))
  }

  lemma HeadLinesFacts(err: DeleteConflict)
    requires '\n' !in err.message
    requires forall i :: 0 <= i < |err.productos.GetOr([])| ==> '\n' !in err.productos.GetOr([])[i]
    ensures ConflictMessage(err) == Join(HeadLines(err), "\n") + Sufijo(err)
    ensures forall i :: 0 <= i < |HeadLines(err)| ==> '\n' !in HeadLines(err)[i]
  {
    var ps := err.productos.GetOr([]);
    var lines := ListLines(ps);
    var head := HeadLines(err);
    ListaAsLines(ps);
    JoinHead(BaseText(err), lines);
    DefaultHasNoBreak();
    ListLinesNoBreak(ps);
    assert forall i :: 2 <= i < |head| ==> head[i] == lines[i - 2];
  }

  /** Read line by line, the message is the base text, an empty line, one line per product
      (or one empty line for none) and, exactly when the list was cut with a truthy total,
      another empty line and the total; so every product name comes back, in order, as
      long as no name and no base text holds a line break. */
  lemma ConflictMessageLines(err: DeleteConflict)
    requires '\n' !in err.message
    requires forall i :: 0 <= i < |err.productos.GetOr([])| ==> '\n' !in err.productos.GetOr([])[i]
    ensures Split(ConflictMessage(err), '\n') ==
      [BaseText(err), ""] + ListLines(err.productos.GetOr([])) +
      (if HasSuffix(err) then ["", SuffixLine(err.totalProductos.value)] else [])
  {
    if HasSuffix(err) {
      ConflictLinesWithSuffix(err);
    } else {
      ConflictLinesNoSuffix(err);
    }
  }

  lemma ConflictLinesWithSuffix(err: DeleteConflict)
    requires '\n' !in err.message
    requires forall i :: 0 <= i < |err.productos.GetOr([])| ==> '\n' !in err.productos.GetOr([])[i]
    requires HasSuffix(err)
    ensures Split(ConflictMessage(err), '\n') == HeadLines(err) + ["", SuffixLine(err.totalProductos.value)]
  {
    HeadLinesFacts(err);
    var last := SuffixLine(err.totalProductos.value);
    SuffixNoBreak(err.totalProductos.value);
    assert ConflictMessage(err) == Join(HeadLines(err), "\n") + "\n\n" + last;
    SplitWithTail(HeadLines(err), last);
  }

  lemma ConflictLinesNoSuffix(err: DeleteConflict)
    requires '\n' !in err.message
    requires forall i :: 0 <= i < |err.productos.GetOr([])| ==> '\n' !in err.productos.GetOr([])[i]
    requires !HasSuffix(err)
    ensures Split(ConflictMessage(err), '\n') == HeadLines(err)
  {
    HeadLinesFacts(err);
    SplitJoin(HeadLines(err), '\n');
    assert Join(HeadLines(err), "\n") + Sufijo(err) == Join(HeadLines(err), "\n");
  }

  lemma SplitWithTail(head: seq<string>, last: string)
    requires head != [] && forall i :: 0 <= i < |head| ==> '\n' !in head[i]
    requires '\n' !in last
    ensures Split(Join(head, "\n") + "\n\n" + last, '\n') == head + ["", last]
  {
    JoinTail(head, last);
    var all := head + ["", last];
    assert forall i :: 0 <= i < |all| ==> '\n' !in all[i] by {
      assert forall i :: 0 <= i < |head| ==> all[i] == head[i];
    }
    SplitJoin(all, '\n');
  }

  // ------------------------------------------------------------------ the screen

  class CategoryScreen {
    var form: CategoryFields
    var okMsg: string
    var errorMsg: string
    var saving: bool
    var editando: bool
    var editId: Option<int>
    var confirm: Modal<int>

    constructor ()
      ensures form == CategoryFields("", "") && okMsg == "" && errorMsg == "" && !saving
      ensures !editando && editId.None? && confirm == Closed()
    {
      form := CategoryFields("", "");
      okMsg, errorMsg := "", "";
      saving, editando := false, false;
      editId := None;
      confirm := Closed();
    }

    /** `showOk(m)`: the success text set, the error text cleared. */
    method ShowOk(m: string)
      modifies this
      ensures okMsg == m && errorMsg == ""
      ensures form == old(form) && saving == old(saving) && editando == old(editando)
      ensures editId == old(editId) && confirm == old(confirm)
    {
      okMsg, errorMsg := m, "";
    }

    /** `showError(m)`: the error text set, the success text cleared. */
    method ShowError(m: string)
      modifies this
      ensures errorMsg == m && okMsg == ""
      ensures form == old(form) && saving == old(saving) && editando == old(editando)
      ensures editId == old(editId) && confirm == old(confirm)
    {
      errorMsg, okMsg := m, "";
    }

    /** `submit`: nothing while saving; the first failed check on the normalised texts is
        shown as the error with `saving` left off; otherwise `saving` turns on, both
        messages clear and the body goes out, as an update when editing a known id and as a
        creation otherwise. */
    method Submit() returns (req: Option<CategoryRequest>)
      modifies this
      ensures old(saving) ==> req.None? && saving && okMsg == old(okMsg) && errorMsg == old(errorMsg)
      ensures !old(saving) && CheckForm(old(form)).Some? ==>
        req.None? && !saving && okMsg == "" &&
        errorMsg == Describe(CheckForm(old(form)).value)
      ensures !old(saving) && CheckForm(old(form)).None? ==>
        saving && okMsg == "" && errorMsg == "" &&
        req == Some(if old(editando) && old(editId).Some? then Actualizar(old(editId).value, BodyOf(old(form)))
                    else Crear(BodyOf(old(form))))
      ensures form == old(form) && editando == old(editando) && editId == old(editId) && confirm == old(confirm)
    {
      if saving { return None; }
      var err := CheckForm(form);
      if err.Some? {
        errorMsg, okMsg := Describe(err.value), "";
        return None;
      }
      saving := true;
      okMsg, errorMsg := "", "";
      if editando && editId.Some? {
        req := Some(Actualizar(editId.value, BodyOf(form)));
      } else {
        req := Some(Crear(BodyOf(form)));
      }
    }

    /** `editar(c)`: edit mode on, the id kept (absent when the row has none), the form
        loaded from the row. */
    method Editar(c: Categoria)
      modifies this
      ensures editando && editId == c.idCategoria
      ensures form == CategoryFields(c.nombreCategoria.GetOr(""), c.descripcionCategoria.GetOr(""))
      ensures okMsg == old(okMsg) && errorMsg == old(errorMsg) && saving == old(saving) && confirm == old(confirm)
    {
      editando := true;
      editId := c.idCategoria;
      form := CategoryFields(c.nombreCategoria.GetOr(""), c.descripcionCategoria.GetOr(""));
    }

    /** `cancelarEdicion`: edit mode off, no id, empty form. */
    method CancelarEdicion()
      modifies this
      ensures !editando && editId.None? && form == CategoryFields("", "")
      ensures okMsg == old(okMsg) && errorMsg == old(errorMsg) && saving == old(saving) && confirm == old(confirm)
    {
      editando := false;
      editId := None;
      form := CategoryFields("", "");
    }

    /** `confirmarEliminar(c)`: the modal opens with the row's id pending (none when the row
        has no id). */
    method ConfirmarEliminar(c: Categoria)
      modifies this
      ensures confirm == Modal(true, c.idCategoria)
      ensures form == old(form) && okMsg == old(okMsg) && errorMsg == old(errorMsg)
      ensures saving == old(saving) && editando == old(editando) && editId == old(editId)
    {
      confirm := Modal(true, c.idCategoria);
    }

    method CloseConfirm()
      modifies this
      ensures confirm == Closed()
      ensures form == old(form) && okMsg == old(okMsg) && errorMsg == old(errorMsg)
      ensures saving == old(saving) && editando == old(editando) && editId == old(editId)
    {
      confirm := Closed();
    }

    /** `doEliminarConfirmado`: the modal closes and the pending id clears before the delete
        goes out; with nothing pending it only closes. */
    method DoEliminarConfirmado() returns (req: Option<CategoryRequest>)
      modifies this
      ensures confirm == Closed()
      ensures old(confirm).pending.None? ==> req.None?
      ensures old(confirm).pending.Some? ==> req == Some(Borrar(old(confirm).pending.value))
      ensures form == old(form) && okMsg == old(okMsg) && errorMsg == old(errorMsg)
      ensures saving == old(saving) && editando == old(editando) && editId == old(editId)
    {
      var (id, m) := Confirmed(confirm);
      confirm := m;
      req := if id.Some? then Some(Borrar(id.value)) else None;
    }

    /** The delete's error callback: the composed message is shown as the error. */
    method OnDeleteError(status: int, err: Option<DeleteConflict>)
      modifies this
      ensures errorMsg == DeleteErrorMessage(status, err) && okMsg == ""
      ensures form == old(form) && saving == old(saving) && editando == old(editando)
      ensures editId == old(editId) && confirm == old(confirm)
    {
      errorMsg, okMsg := DeleteErrorMessage(status, err), "";
    }
  }
}
