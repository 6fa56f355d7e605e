/**
 * The identification-types screen: soft truncation of the input, the local part of the
 * duplicate pre-check, the check chain of `submit`, the confirmation dialog whose action
 * is deleting, activating or deactivating a type, and the dialog offered when the server
 * refuses a delete because the type is in use (HTTP 409).
 */
module Tipos {
  import opened Wrappers
  import opened Text
  import opened Feedback

  const DESC_MAX: nat := 100

  /** A type as the list holds it; `estado` 'A' is active. */
  datatype TipoId = TipoId(id: int, descripcion: string, activo: bool)

  // ------------------------------------------------------------------ pre-check and checks

  predicate AllNameChars(s: string) {
    forall i :: 0 <= i < |s| ==> IsNameChar(s[i])
  }

  lemma AllNameCharsConcat(a: string, b: string)
    ensures AllNameChars(a + b) <==> AllNameChars(a) && AllNameChars(b)
  {
    if AllNameChars(a) && AllNameChars(b) {
      forall i | 0 <= i < |a + b| ensures IsNameChar((a + b)[i]) {
        if i >= |a| { assert (a + b)[i] == b[i - |a|]; }
      }
    }
    if AllNameChars(a + b) {
      assert forall i :: 0 <= i < |a| ==> a[i] == (a + b)[i];
      assert forall i :: 0 <= i < |b| ==> b[i] == (a + b)[|a| + i];
    }
  }

  lemma SpacesAreNameChars(w: string)
    requires forall i :: 0 <= i < |w| ==> IsSpace(w[i])
    ensures AllNameChars(w)
  {
  }

  /** A text opening with whitespace is that run of whitespace followed by what trimming its
      tail leaves. */
  lemma SpaceRun(t: string)
    requires t != [] && IsSpace(t[0])
    ensures |TrimStart(t[1..])| < |t|
    ensures t == t[..|t| - |TrimStart(t[1..])|] + TrimStart(t[1..])
    ensures forall i :: 0 <= i < |t| - |TrimStart(t[1..])| ==> IsSpace(t[i])
  {
    TrimStartFacts(t[1..]);
  }

  /** Collapsing whitespace runs neither adds nor removes a character outside the name
      pattern, since every whitespace character is inside it. */
  lemma {:induction false} CollapseKeepsNameChars(t: string)
    ensures AllNameChars(CollapseSpaces(t)) <==> AllNameChars(t)
    decreases |t|
  {
    if t == [] {
    } else if IsSpace(t[0]) {
      var u := TrimStart(t[1..]);
      SpaceRun(t);
      var w := t[..|t| - |u|];
      CollapseKeepsNameChars(u);
      assert CollapseSpaces(t) == " " + CollapseSpaces(u);
      AllNameCharsConcat(" ", CollapseSpaces(u));
      SpacesAreNameChars(w);
      AllNameCharsConcat(w, u);
    } else {
      CollapseKeepsNameChars(t[1..]);
      assert CollapseSpaces(t) == [t[0]] + CollapseSpaces(t[1..]);
      AllNameCharsConcat([t[0]], CollapseSpaces(t[1..]));
      assert t == [t[0]] + t[1..];
      AllNameCharsConcat([t[0]], t[1..]);
    }
  }

  /** The pre-check reads the trimmed text and `submit` the trimmed and collapsed one, but
      they agree on which descriptions are empty and which fall outside the pattern. */
  lemma PrecheckAgreesWithSubmit(s: string)
    ensures Trim(s) == "" <==> Normalize(s) == ""
    ensures MatchesNamePattern(Trim(s)) <==> MatchesNamePattern(Normalize(s))
  {
    TrimFacts(s);
    CollapseKeepsNameChars(Trim(s));
  }

  /** The query the pre-check sends: the trimmed text, and the id to leave out when editing
      a row with a non-zero id. */
  datatype DupQuery = DupQuery(descripcion: string, excludeId: Option<int>)

  datatype TypeError = NoDescripcion | BadDescripcion

  function Describe(e: TypeError): string {
    match e
    case NoDescripcion => "La descripción es obligatoria."
    case BadDescripcion => "Solo se permiten letras, espacios, guiones y puntos."
  }

  /** The checks of `submit` on the normalised description, before the pending duplicate
      error is looked at. */
  function CheckType(descripcion: string): (r: Option<TypeError>)
    ensures r.None? <==> MatchesNamePattern(descripcion)
    ensures r == Some(NoDescripcion) <==> descripcion == ""
  {
    if descripcion == "" then Some(NoDescripcion)
    else if !MatchesNamePattern(descripcion) then Some(BadDescripcion)
    else None
  }

  // ------------------------------------------------------------------ the 409 detail

  /** The part of the detail for each kind of record. */
  function UsuariosPart(n: int): string { IntToString(n) + " usuario(s)" }
  function VentasPart(n: int): string { IntToString(n) + " venta(s)" }

  /** `partes.join(' y ') || 'registros relacionados'` over the positive counts. */
  function ConflictDetail(usuarios: int, ventas: int): string {
    var partes := (if usuarios > 0 then [UsuariosPart(usuarios)] else []) +
                  (if ventas > 0 then [VentasPart(ventas)] else []);
    var joined := Join(partes, " y ");
    if joined != "" then joined else "registros relacionados"
  }

  /** Users and sales are named only when their counts are positive, both joined by ' y ',
      and the fallback text is used only when neither is. */
  lemma ConflictDetailCases(usuarios: int, ventas: int)
    ensures usuarios > 0 && ventas > 0 ==>
      ConflictDetail(usuarios, ventas) == UsuariosPart(usuarios) + " y " + VentasPart(ventas)
    ensures usuarios > 0 && ventas <= 0 ==> ConflictDetail(usuarios, ventas) == UsuariosPart(usuarios)
    ensures usuarios <= 0 && ventas > 0 ==> ConflictDetail(usuarios, ventas) == VentasPart(ventas)
    ensures usuarios <= 0 && ventas <= 0 ==> ConflictDetail(usuarios, ventas) == "registros relacionados"
  {
    var pu, pv := UsuariosPart(usuarios), VentasPart(ventas);
    if usuarios > 0 && ventas > 0 {
      assert [pu] + [pv] == [pu, pv] && [pu, pv][1..] == [pv];
      assert Join([pu, pv], " y ") == pu + " y " + pv;
    } else if usuarios > 0 {
      assert [pu] + [] == [pu];
      assert pu != "";
    } else if ventas > 0 {
      assert [] + [pv] == [pv];
      assert pv != "";
    }
  }

  /** The question of the refusal dialog, kept in pieces so that each stays short. */
  const PREGUNTA_1: string := ".\n\n¿Deseas DESACTIVARLO "
  const PREGUNTA_2: string := "para que no se use "
  const PREGUNTA_3: string := "en nuevos registros?"

  /** The refusal dialog's text: what uses the type, then the offer to deactivate it. */
  function ConflictMessage(usuarios: int, ventas: int): string {
    "Este tipo está en uso por " + ConflictDetail(usuarios, ventas) + PREGUNTA_1 + PREGUNTA_2 + PREGUNTA_3
  }

  // ------------------------------------------------------------------ the screen

  /** What confirming the dialog runs. */
  datatype TypeAction = EliminarRow(row: TipoId) | ActivarId(id: int) | DesactivarId(id: int)

  datatype TypeRequest =
    | Crear(descripcion: string)
    | Actualizar(id: int, descripcion: string)
    | Borrar(id: int)
    | Activar(id: int)
    | Desactivar(id: int)

  /** The request a confirmed action sends. */
  function Run(a: TypeAction): TypeRequest {
    match a
    case EliminarRow(row) => Borrar(row.id)
    case ActivarId(id) => Activar(id)
    case DesactivarId(id) => Desactivar(id)
  }

  class TypeScreen {
    var form: string
    var msgs: Messages
    var descError: string
    var saving: bool
    var editando: bool
    var editRow: Option<TipoId>
    var confirm: Dialog<TypeAction>

    constructor ()
      ensures form == "" && msgs == NoMessages && descError == "" && !saving
      ensures !editando && editRow.None? && confirm == ClosedDialog()
    {
      form := "";
      msgs := NoMessages;
      descError := "";
      saving, editando := false, false;
      editRow := None;
      confirm := ClosedDialog();
    }

    /** `onDescripcionInput` on the typed text: cut to 100 characters, written back only
        when that changed it; the duplicate error clears. */
    method OnDescripcionInput(value: string) returns (written: Option<string>)
      modifies this
      ensures written.Some? <==> |value| > DESC_MAX
      ensures written.Some? ==> written.value == value[..DESC_MAX]
      ensures form == Take(value, DESC_MAX) && |form| <= DESC_MAX && descError == ""
      ensures msgs == old(msgs) && saving == old(saving) && editando == old(editando)
      ensures editRow == old(editRow) && confirm == old(confirm)
    {
      var rec := Take(value, DESC_MAX);
      written := None;
      form := value;
      if value != rec {
        written := Some(rec);
        form := rec;
      }
      if descError != "" { descError := ""; }
    }

    /** The local part of `checkDuplicado`: an empty or off-pattern trimmed text sets its
        error and asks nothing; otherwise the existence query goes out and the error stays
        as it was until the answer. */
    method CheckDuplicado() returns (q: Option<DupQuery>)
      modifies this
      ensures Trim(old(form)) == "" ==> q.None? && descError == "Ingresa un tipo de identificación"
      ensures Trim(old(form)) != "" && !MatchesNamePattern(Trim(old(form))) ==>
        q.None? && descError == "Solo letras, espacios, guiones y puntos."
      ensures MatchesNamePattern(Trim(old(form))) ==>
        descError == old(descError) &&
        q == Some(DupQuery(Trim(old(form)),
          if old(editando) && old(editRow).Some? && old(editRow).value.id != 0 then Some(old(editRow).value.id) else None))
      ensures form == old(form) && msgs == old(msgs) && saving == old(saving) && editando == old(editando)
      ensures editRow == old(editRow) && confirm == old(confirm)
    {
      var val := Trim(form);
      if val == "" {
        descError := "Ingresa un tipo de identificación";
        return None;
      }
      if !MatchesNamePattern(val) {
        descError := "Solo letras, espacios, guiones y puntos.";
        return None;
      }
      var excl := if editando && editRow.Some? && editRow.value.id != 0 then Some(editRow.value.id) else None;
      q := Some(DupQuery(val, excl));
    }

    /** The answer of the existence query: a duplicate sets the error, no duplicate clears
        it, and a failed query leaves it as it was. */
    method ApplyDuplicateAnswer(exists_: Option<bool>)
      modifies this
      ensures exists_ == Some(true) ==> descError == "Ya existe un tipo de identificación con esa descripción."
      ensures exists_ == Some(false) ==> descError == ""
      ensures exists_.None? ==> descError == old(descError)
      ensures form == old(form) && msgs == old(msgs) && saving == old(saving) && editando == old(editando)
      ensures editRow == old(editRow) && confirm == old(confirm)
    {
      if exists_.Some? {
        descError := if exists_.value then "Ya existe un tipo de identificación con esa descripción." else "";
      }
    }

    /** `submit`: nothing while saving; a failed check goes to the inline message, a pending
        duplicate error returns without a word, both with `saving` left off; otherwise
        `saving` turns on and the normalised description goes out, as an update when
        editing a row with a non-zero id and as a creation otherwise. */
    method Submit() returns (req: Option<TypeRequest>)
      modifies this
      ensures old(saving) ==> req.None? && saving && msgs == old(msgs)
      ensures !old(saving) && CheckType(Normalize(old(form))).Some? ==>
        req.None? && !saving && msgs == InlineOnly(Describe(CheckType(Normalize(old(form))).value))
      ensures !old(saving) && CheckType(Normalize(old(form))).None? && old(descError) != "" ==>
        req.None? && !saving && msgs == old(msgs)
      ensures !old(saving) && CheckType(Normalize(old(form))).None? && old(descError) == "" ==>
        saving && msgs == old(msgs) &&
        req == Some(if old(editando) && old(editRow).Some? && old(editRow).value.id != 0
                    then Actualizar(old(editRow).value.id, Normalize(old(form)))
                    else Crear(Normalize(old(form))))
      ensures form == old(form) && descError == old(descError) && editando == old(editando)
      ensures editRow == old(editRow) && confirm == old(confirm)
    {
      if saving { return None; }
      var descripcion := Normalize(form);
      var err := CheckType(descripcion);
      if err.Some? {
        msgs := InlineOnly(Describe(err.value));
        return None;
      }
      if descError != "" { return None; }
      saving := true;
      if editando && editRow.Some? && editRow.value.id != 0 {
        req := Some(Actualizar(editRow.value.id, descripcion));
      } else {
        req := Some(Crear(descripcion));
      }
    }

    /** `editar(row)`: edit mode on, the row kept, its description loaded, the duplicate
        error cleared. */
    method Editar(row: TipoId)
      modifies this
      ensures editando && editRow == Some(row) && form == row.descripcion && descError == ""
      ensures msgs == old(msgs) && saving == old(saving) && confirm == old(confirm)
    {
      editando := true;
      editRow := Some(row);
      form := row.descripcion;
      descError := "";
    }

    /** `confirmarEliminar(row)`: the dialog opens asking to delete the row. */
    method ConfirmarEliminar(row: TipoId)
      modifies this
      ensures confirm == Dialog(true, "Confirmar eliminación",
        "¿Seguro que deseas eliminar \"" + row.descripcion + "\"?\nEsta acción no se puede deshacer.",
        Some(EliminarRow(row)))
      ensures form == old(form) && msgs == old(msgs) && descError == old(descError)
      ensures saving == old(saving) && editando == old(editando) && editRow == old(editRow)
    {
      confirm := Dialog(true, "Confirmar eliminación",
        "¿Seguro que deseas eliminar \"" + row.descripcion + "\"?\nEsta acción no se puede deshacer.",
        Some(EliminarRow(row)));
    }

    /** `confirmarActivar(row)`: the dialog opens asking to activate the row's id. */
    method ConfirmarActivar(row: TipoId)
      modifies this
      ensures confirm == Dialog(true, "Confirmar activación",
        "Este tipo está inactivo.\n¿Deseas ACTIVAR \"" + row.descripcion + "\"?", Some(ActivarId(row.id)))
      ensures form == old(form) && msgs == old(msgs) && descError == old(descError)
      ensures saving == old(saving) && editando == old(editando) && editRow == old(editRow)
    {
      confirm := Dialog(true, "Confirmar activación",
        "Este tipo está inactivo.\n¿Deseas ACTIVAR \"" + row.descripcion + "\"?", Some(ActivarId(row.id)));
    }

    method CloseConfirm()
      modifies this
      ensures confirm == ClosedDialog()
      ensures form == old(form) && msgs == old(msgs) && descError == old(descError)
      ensures saving == old(saving) && editando == old(editando) && editRow == old(editRow)
    {
      confirm := ClosedDialog();
    }

    /** `doConfirm`: the dialog closes first (texts and action cleared), then the captured
        action runs, if there was one. */
    method DoConfirm() returns (req: Option<TypeRequest>)
      modifies this
      ensures confirm == ClosedDialog()
      ensures old(confirm).handler.None? ==> req.None?
      ensures old(confirm).handler.Some? ==> req == Some(Run(old(confirm).handler.value))
      ensures form == old(form) && msgs == old(msgs) && descError == old(descError)
      ensures saving == old(saving) && editando == old(editando) && editRow == old(editRow)
    {
      var (fn, d) := RunConfirm(confirm);
      confirm := d;
      req := if fn.Some? then Some(Run(fn.value)) else None;
    }

    /** The delete's error callback: a 409 asking for deactivation opens the dialog that
        offers deactivating the row, with the counts in its text; any other error is shown
        with the server's text or a generic one. */
    method OnDeleteError(row: TipoId, status: int, requiresDeactivation: bool, usuarios: int, ventas: int,
                         message: string)
      modifies this
      ensures status == 409 && requiresDeactivation ==>
        confirm == Dialog(true, "No se puede eliminar", ConflictMessage(usuarios, ventas), Some(DesactivarId(row.id))) &&
        msgs == old(msgs)
      ensures !(status == 409 && requiresDeactivation) ==>
        confirm == old(confirm) && msgs == ErrorOnly(if message != "" then message else "Operación no permitida.")
      ensures form == old(form) && descError == old(descError)
      ensures saving == old(saving) && editando == old(editando) && editRow == old(editRow)
    {
      if status == 409 && requiresDeactivation {
        confirm := Dialog(true, "No se puede eliminar", ConflictMessage(usuarios, ventas), Some(DesactivarId(row.id)));
        return;
      }
      msgs := ErrorOnly(if message != "" then message else "Operación no permitida.");
    }

    /** `resetForm` (also `cancelarEdicion`): edit mode off, no row, empty form, no
        duplicate error. */
    method ResetForm()
      modifies this
      ensures !editando && editRow.None? && form == "" && descError == ""
      ensures msgs == old(msgs) && saving == old(saving) && confirm == old(confirm)
    {
      editando := false;
      editRow := None;
      form := "";
      descError := "";
    }
  }
}
