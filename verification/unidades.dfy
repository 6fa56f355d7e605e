/**
 * The units-of-measure screen: soft truncation of the two inputs while typing, the
 * fail-fast checks of `submit` on the normalised texts, the body, the confirmation
 * dialog with its captured delete action, and the id guard of the delete.
 */
module Unidades {
  import opened Wrappers
  import opened Text
  import opened Feedback
  import opened NameRules

  const NOMBRE_MAX: nat := 100
  const DESC_MAX: nat := 150

  /** A unit as the list shows it. */
  datatype Unidad = Unidad(codigo: int, nombre: string, descripcion: Option<string>)

  datatype UnitFields = UnitFields(nombre: string, descripcion: string)

  /** The checks of `submit`, in their order, on the normalised name and description. */
  function CheckUnit(nombre: string, descripcion: string): Option<NameError> {
    CheckNamed(nombre, descripcion, NOMBRE_MAX, DESC_MAX)
  }

  /** Texts that went through the input handlers never fail the length checks: the handlers
      cut them to the limits and normalising does not lengthen them. */
  lemma TruncatedWithinLimits(nombre: string, descripcion: string)
    ensures CheckUnit(Normalize(Take(nombre, NOMBRE_MAX)), Normalize(Take(descripcion, DESC_MAX))) !in
      {Some(LongNombre(NOMBRE_MAX)), Some(LongDescripcion(DESC_MAX))}
  {
  }

  datatype UnitBody = UnitBody(nombre: string, descripcion: Option<string>)

  /** The body: the normalised name, and the normalised description left out when empty. */
  function BodyOf(f: UnitFields): (b: UnitBody)
    ensures b.nombre == Normalize(f.nombre)
    ensures b.descripcion.None? <==> forall i :: 0 <= i < |f.descripcion| ==> IsSpace(f.descripcion[i])
    ensures b.descripcion.Some? ==> b.descripcion.value == Normalize(f.descripcion) && WellSpaced(b.descripcion.value)
  {
    var d := Normalize(f.descripcion);
    UnitBody(Normalize(f.nombre), if d == "" then None else Some(d))
  }

  /** The action a confirmation runs: deleting the unit with this code. */
  datatype UnitAction = Eliminar(codigo: int)

  datatype UnitRequest = Crear(body: UnitBody) | Actualizar(codigo: int, body: UnitBody) | Borrar(codigo: int)

  /** The body of a refused delete, as far as the screen reads it (an empty `message` is a
      missing one). */
  datatype UnitConflict = UnitConflict(
    message: string,
    requiresUpdateProducts: bool,
    productos: Option<seq<string>>,
    totalProductos: Option<int>,
    truncated: bool)

  /** A number interpolated into a template literal; a missing one prints as `undefined`. */
  function Interpolated(n: Option<int>): string {
    if n.Some? then IntToString(n.value) else "undefined"
  }

  /** The instruction line of the refusal, kept in pieces so that each stays short. */
  const INSTRUCCION_1: string := "Debes editar esos productos "
  const INSTRUCCION_2: string := "y cambiar la unidad "
  const INSTRUCCION_3: string := "antes de eliminarla."

  function ConflictHead(err: UnitConflict): string {
    "La unidad está en uso por " + IntToString(err.totalProductos.GetOr(0)) + " producto(s).\n"
  }

  function ConflictSuffix(err: UnitConflict): string {
    "\n\n(Se muestran solo algunos; total: " + Interpolated(err.totalProductos) + ")"
  }

  /** The informative text of a 409 refusal. */
  function ConflictMessage(err: UnitConflict): string {
    ConflictHead(err) + ConflictBody(err) + (if err.truncated then ConflictSuffix(err) else "")
  }

  function ConflictBody(err: UnitConflict): string {
    INSTRUCCION_1 + INSTRUCCION_2 + INSTRUCCION_3 + "\n\n" + Lista(err.productos.GetOr([]))
  }

  /** The text opens with the count of products (0 when the server sent none) and, whenever
      the list was cut, closes with the total, even when the server sent no total. */
  lemma ConflictMessageShape(err: UnitConflict)
    ensures var m, h := ConflictMessage(err), ConflictHead(err);
      |h| <= |m| && m[..|h|] == h
    ensures var m, t := ConflictMessage(err), ConflictSuffix(err);
      err.truncated ==> |t| <= |m| && m[|m| - |t|..] == t
  {
    PrefixAndSuffix(ConflictHead(err), ConflictBody(err), if err.truncated then ConflictSuffix(err) else "");
  }

  lemma PrefixAndSuffix(h: string, rest: string, suf: string)
    ensures (h + rest + suf)[..|h|] == h && (h + rest + suf)[|h + rest|..] == suf
  {
  }

  /** Any other refusal: the server's text, or a generic one when it sent none. */
  function OtherErrorText(err: UnitConflict): (r: string)
    ensures err.message != "" ==> r == err.message
    ensures err.message == "" ==> r == "Error al eliminar."
  {
    if err.message != "" then err.message else "Error al eliminar."
  }

  /** The informative dialog a 409 refusal opens: shown, titled, with no action. */
  function RefusalDialog(err: UnitConflict): (d: Dialog<UnitAction>)
    ensures d.open && d.handler.None? && d.message == ConflictMessage(err)
  {
    Dialog(true, "No se puede eliminar", ConflictMessage(err), None)
  }

  class UnitScreen {
    var form: UnitFields
    var msgs: Messages
    var nombreError: string
    var saving: bool
    var editando: bool
    var editingRow: Option<Unidad>
    var confirm: Dialog<UnitAction>

    constructor ()
      ensures form == UnitFields("", "") && msgs == NoMessages && nombreError == ""
      ensures !saving && !editando && editingRow.None? && confirm == ClosedDialog()
    {
      form := UnitFields("", "");
      msgs := NoMessages;
      nombreError := "";
      saving, editando := false, false;
      editingRow := None;
      confirm := ClosedDialog();
    }

    /** `onNombreInput` on the typed text `value` (which the control already holds): the
        text is cut to 100 characters and written back only when that changed it; the
        name error always clears. */
    method OnNombreInput(value: string) returns (written: Option<string>)
      modifies this
      ensures written.Some? <==> |value| > NOMBRE_MAX
      ensures written.Some? ==> written.value == value[..NOMBRE_MAX]
      ensures form == old(form).(nombre := Take(value, NOMBRE_MAX)) && |form.nombre| <= NOMBRE_MAX
      ensures nombreError == ""
      ensures msgs == old(msgs) && saving == old(saving) && editando == old(editando)
      ensures editingRow == old(editingRow) && confirm == old(confirm)
    {
      var rec := Take(value, NOMBRE_MAX);
      written := None;
      form := form.(nombre := value);
      if value != rec {
        written := Some(rec);
        form := form.(nombre := rec);
      }
      nombreError := "";
    }

    /** `onDescInput`: the same cut at 150 characters; the name error is left as it was. */
    method OnDescInput(value: string) returns (written: Option<string>)
      modifies this
      ensures written.Some? <==> |value| > DESC_MAX
      ensures written.Some? ==> written.value == value[..DESC_MAX]
      ensures form == old(form).(descripcion := Take(value, DESC_MAX)) && |form.descripcion| <= DESC_MAX
      ensures nombreError == old(nombreError)
      ensures msgs == old(msgs) && saving == old(saving) && editando == old(editando)
      ensures editingRow == old(editingRow) && confirm == old(confirm)
    {
      var rec := Take(value, DESC_MAX);
      written := None;
      form := form.(descripcion := value);
      if value != rec {
        written := Some(rec);
        form := form.(descripcion := rec);
      }
    }

    /** `submit`: nothing while saving; the first failed check on the normalised texts goes
        to the inline message with `saving` left off; otherwise `saving` turns on (the
        messages stay as they were) and the body goes out, as an update when editing a row
        with a non-zero code and as a creation otherwise. */
    method Submit() returns (req: Option<UnitRequest>)
      modifies this
      ensures old(saving) ==> req.None? && saving && msgs == old(msgs)
      ensures !old(saving) && CheckUnit(Normalize(old(form).nombre), Normalize(old(form).descripcion)).Some? ==>
        req.None? && !saving &&
        msgs == InlineOnly(Describe(CheckUnit(Normalize(old(form).nombre), Normalize(old(form).descripcion)).value))
      ensures !old(saving) && CheckUnit(Normalize(old(form).nombre), Normalize(old(form).descripcion)).None? ==>
        saving && msgs == old(msgs) &&
        req == Some(if old(editando) && old(editingRow).Some? && old(editingRow).value.codigo != 0
                    then Actualizar(old(editingRow).value.codigo, BodyOf(old(form)))
                    else Crear(BodyOf(old(form))))
      ensures form == old(form) && nombreError == old(nombreError) && editando == old(editando)
      ensures editingRow == old(editingRow) && confirm == old(confirm)
    {
      if saving { return None; }
      var nombre := Normalize(form.nombre);
      var descripcion := Normalize(form.descripcion);
      var err := CheckUnit(nombre, descripcion);
      if err.Some? {
        msgs := InlineOnly(Describe(CheckUnit(Normalize(form.nombre), Normalize(form.descripcion)).value));
        return None;
      }
      saving := true;
      var body := BodyOf(form);
      if editando && editingRow.Some? && editingRow.value.codigo != 0 {
        req := Some(Actualizar(editingRow.value.codigo, body));
      } else {
        req := Some(Crear(body));
      }
    }

    /** `editar(row)`: edit mode on, the row kept, the form loaded from it. */
    method Editar(row: Unidad)
      modifies this
      ensures editando && editingRow == Some(row)
      ensures form == UnitFields(row.nombre, row.descripcion.GetOr(""))
      ensures msgs == old(msgs) && nombreError == old(nombreError) && saving == old(saving) && confirm == old(confirm)
    {
      editando := true;
      editingRow := Some(row);
      form := UnitFields(row.nombre, row.descripcion.GetOr(""));
    }

    /** `confirmarEliminar(row)`: the dialog open with its texts and the row's delete as the
        action. */
    method ConfirmarEliminar(row: Unidad)
      modifies this
      ensures confirm == Dialog(true, "Confirmar eliminación",
        "¿Seguro que deseas eliminar la unidad \"" + row.nombre + "\"?\nEsta acción no se puede deshacer.",
        Some(Eliminar(row.codigo)))
      ensures form == old(form) && msgs == old(msgs) && nombreError == old(nombreError)
      ensures saving == old(saving) && editando == old(editando) && editingRow == old(editingRow)
    {
      confirm := Dialog(true, "Confirmar eliminación",
        "¿Seguro que deseas eliminar la unidad \"" + row.nombre + "\"?\nEsta acción no se puede deshacer.",
        Some(Eliminar(row.codigo)));
    }

    method CloseConfirm()
      modifies this
      ensures confirm == ClosedDialog()
      ensures form == old(form) && msgs == old(msgs) && nombreError == old(nombreError)
      ensures saving == old(saving) && editando == old(editando) && editingRow == old(editingRow)
    {
      confirm := ClosedDialog();
    }

    /** `eliminar(id)`: a zero id shows 'ID inválido.' and sends nothing; any other id is
        sent for deletion. */
    method EliminarUnidad(id: int) returns (req: Option<UnitRequest>)
      modifies this
      ensures id == 0 ==> req.None? && msgs == ErrorOnly("ID inválido.")
      ensures id != 0 ==> req == Some(Borrar(id)) && msgs == old(msgs)
      ensures form == old(form) && nombreError == old(nombreError) && confirm == old(confirm)
      ensures saving == old(saving) && editando == old(editando) && editingRow == old(editingRow)
    {
      if id == 0 {
        msgs := ErrorOnly("ID inválido.");
        return None;
      }
      req := Some(Borrar(id));
    }

    /** `doConfirm`: the dialog closes first (texts and action cleared), then the captured
        action runs, if there was one. */
    method DoConfirm() returns (req: Option<UnitRequest>)
      modifies this
      ensures confirm == ClosedDialog()
      ensures old(confirm).handler.None? ==> req.None? && msgs == old(msgs)
      ensures old(confirm).handler.Some? && old(confirm).handler.value.codigo == 0 ==>
        req.None? && msgs == ErrorOnly("ID inválido.")
      ensures old(confirm).handler.Some? && old(confirm).handler.value.codigo != 0 ==>
        req == Some(Borrar(old(confirm).handler.value.codigo)) && msgs == old(msgs)
      ensures form == old(form) && nombreError == old(nombreError)
      ensures saving == old(saving) && editando == old(editando) && editingRow == old(editingRow)
    {
      var fn := confirm.handler;
      CloseConfirm();
      req := None;
      if fn.Some? {
        req := EliminarUnidad(fn.value.codigo);
      }
    }

    /** The delete's error callback: a 409 asking to update products opens an informative
        dialog with no action (confirming it only closes it); any other error is shown with
        the server's text or a generic one. */
    method OnDeleteError(status: int, err: UnitConflict)
      modifies this
      ensures status == 409 && err.requiresUpdateProducts ==>
        confirm == RefusalDialog(err) && msgs == old(msgs)
      ensures !(status == 409 && err.requiresUpdateProducts) ==>
        confirm == old(confirm) && msgs == ErrorOnly(OtherErrorText(err))
      ensures form == old(form) && nombreError == old(nombreError)
      ensures saving == old(saving) && editando == old(editando) && editingRow == old(editingRow)
    {
      if status == 409 && err.requiresUpdateProducts {
        confirm := RefusalDialog(err);
        return;
      }
      msgs := ErrorOnly(OtherErrorText(err));
    }

    /** `resetForm` (also `cancelarEdicion`): edit mode off, no row, blank form, no name
        error. */
    method ResetForm()
      modifies this
      ensures !editando && editingRow.None? && form == UnitFields("", "") && nombreError == ""
      ensures msgs == old(msgs) && saving == old(saving) && confirm == old(confirm)
    {
      editando := false;
      editingRow := None;
      form := UnitFields("", "");
      nombreError := "";
    }
  }
}
