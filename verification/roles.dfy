/**
 * The roles screen: the check chain of `submit`, the body it sends, the guard that keeps
 * the protected 'administrador' role out of editing and deletion, and the edit and
 * confirmation state.
 */
module Roles {
  import opened Wrappers
  import opened Text
  import opened Feedback
  import opened NameRules
  import opened Confirm
  import opened Canon

  const NOMBRE_MAX: nat := 50
  const DESC_MAX: nat := 200

  /** A role as the list holds it. */
  datatype Rol = Rol(idRol: int, nombreRol: string, descripcionRol: Option<string>)

  datatype RoleFields = RoleFields(nombre: string, descripcion: string)

  /** `isProtected(r)`: the role's canonical name is 'administrador'. */
  predicate IsProtected(r: Rol) {
    IsProtectedRole(r.nombreRol)
  }

  /** The checks of `submit`, in their order, on the normalised name and description. */
  function CheckRole(nombre: string, descripcion: string): Option<NameError> {
    CheckNamed(nombre, descripcion, NOMBRE_MAX, DESC_MAX)
  }

  /** The body always carries the description, as the empty text when there is none. */
  datatype RoleBody = RoleBody(nombreRol: string, descripcionRol: string)

  function BodyOf(f: RoleFields): RoleBody {
    RoleBody(Normalize(f.nombre), Normalize(f.descripcion))
  }

  /** The texts sent are trimmed and single-spaced, and the description is empty exactly
      when the form's was blank. */
  lemma BodyOfShape(f: RoleFields)
    ensures WellSpaced(BodyOf(f).nombreRol) && WellSpaced(BodyOf(f).descripcionRol)
    ensures BodyOf(f).descripcionRol == "" <==> forall i :: 0 <= i < |f.descripcion| ==> IsSpace(f.descripcion[i])
  {
  }

  /** Loading a role into the form and sending it back unchanged sends the role's own
      texts when they were already well spaced. */
  lemma EditedBodyKeepsTexts(r: Rol)
    requires WellSpaced(r.nombreRol) && WellSpaced(r.descripcionRol.GetOr(""))
    ensures BodyOf(RoleFields(r.nombreRol, r.descripcionRol.GetOr(""))) ==
      RoleBody(r.nombreRol, r.descripcionRol.GetOr(""))
  {
    NormalizeFixesWellSpaced(r.nombreRol);
    NormalizeFixesWellSpaced(r.descripcionRol.GetOr(""));
  }

  /** `rows.find(x => x.id_rol === id)`: the first row with that id, if any. */
  function FindRow(rows: seq<Rol>, id: int): (r: Option<Rol>)
    ensures r.None? <==> forall k :: 0 <= k < |rows| ==> rows[k].idRol != id
    ensures r.Some? ==> r.value.idRol == id
    ensures r.Some? ==> (exists k :: 0 <= k < |rows| && rows[k] == r.value && (forall j :: 0 <= j < k ==> rows[j].idRol != id))
  {
    if rows == [] then None
    else if rows[0].idRol == id then Some(rows[0])
    else
      var r := FindRow(rows[1..], id);
      assert r.Some? ==> forall j :: 0 <= j < 1 ==> rows[j].idRol != id;
      r
  }

  datatype RoleRequest = Crear(body: RoleBody) | Actualizar(id: int, body: RoleBody) | Borrar(id: int)

  class RoleScreen {
    var rows: seq<Rol>
    var form: RoleFields
    var msgs: Messages
    var saving: bool
    var editando: bool
    var editId: Option<int>
    var confirm: Modal<int>

    constructor (rows: seq<Rol>)
      ensures this.rows == rows && form == RoleFields("", "") && msgs == NoMessages
      ensures !saving && !editando && editId.None? && confirm == Closed()
    {
      this.rows := rows;
      form := RoleFields("", "");
      msgs := NoMessages;
      saving, editando := false, false;
      editId := None;
      confirm := Closed();
    }

    /** `submit`: nothing while saving; the first failed check on the normalised texts goes
        to the inline message with `saving` left off; otherwise `saving` turns on (the
        messages stay as they were) and the body goes out, as an update when editing a
        known id and as a creation otherwise. */
    method Submit() returns (req: Option<RoleRequest>)
      modifies this
      ensures old(saving) ==> req.None? && saving && msgs == old(msgs)
      ensures !old(saving) && CheckRole(Normalize(old(form).nombre), Normalize(old(form).descripcion)).Some? ==>
        req.None? && !saving &&
        msgs == InlineOnly(Describe(CheckRole(Normalize(old(form).nombre), Normalize(old(form).descripcion)).value))
      ensures !old(saving) && CheckRole(Normalize(old(form).nombre), Normalize(old(form).descripcion)).None? ==>
        saving && msgs == old(msgs) &&
        req == Some(if old(editando) && old(editId).Some? then Actualizar(old(editId).value, BodyOf(old(form)))
                    else Crear(BodyOf(old(form))))
      ensures rows == old(rows) && form == old(form) && editando == old(editando)
      ensures editId == old(editId) && confirm == old(confirm)
    {
      if saving { return None; }
      var err := CheckRole(Normalize(form.nombre), Normalize(form.descripcion));
      if err.Some? {
        msgs := InlineOnly(Describe(err.value));
        return None;
      }
      saving := true;
      if editando && editId.Some? {
        req := Some(Actualizar(editId.value, BodyOf(form)));
      } else {
        req := Some(Crear(BodyOf(form)));
      }
    }

    /** `editar(r)`: a protected role is left alone; any other is loaded into the form in
        edit mode. */
    method Editar(r: Rol)
      modifies this
      ensures IsProtected(r) ==> form == old(form) && editando == old(editando) && editId == old(editId)
      ensures !IsProtected(r) ==>
        editando && editId == Some(r.idRol) && form == RoleFields(r.nombreRol, r.descripcionRol.GetOr(""))
      ensures rows == old(rows) && msgs == old(msgs) && saving == old(saving) && confirm == old(confirm)
    {
      if IsProtected(r) { return; }
      editando := true;
      editId := Some(r.idRol);
      form := RoleFields(r.nombreRol, r.descripcionRol.GetOr(""));
    }

    method ConfirmarEliminar(id: int)
      modifies this
      ensures confirm == Ask(id)
      ensures rows == old(rows) && form == old(form) && msgs == old(msgs)
      ensures saving == old(saving) && editando == old(editando) && editId == old(editId)
    {
      confirm := Ask(id);
    }

    method CloseConfirm()
      modifies this
      ensures confirm == Closed()
      ensures rows == old(rows) && form == old(form) && msgs == old(msgs)
      ensures saving == old(saving) && editando == old(editando) && editId == old(editId)
    {
      confirm := Closed();
    }

    /** `doEliminarConfirmado`: the modal always closes; the delete goes out for the pending
        id unless nothing was pending or the first listed role with that id is protected. */
    method DoEliminarConfirmado() returns (req: Option<RoleRequest>)
      modifies this
      ensures confirm == Closed()
      ensures old(confirm).pending.None? ==> req.None?
      ensures old(confirm).pending.Some? ==>
        var id := old(confirm).pending.value;
        (req.None? <==> FindRow(rows, id).Some? && IsProtected(FindRow(rows, id).value)) &&
        (req.Some? ==> req.value == Borrar(id))
      ensures rows == old(rows) && form == old(form) && msgs == old(msgs)
      ensures saving == old(saving) && editando == old(editando) && editId == old(editId)
    {
      if confirm.pending.None? {
        CloseConfirm();
        return None;
      }
      var id := confirm.pending.value;
      CloseConfirm();
      var r := FindRow(rows, id);
      if r.Some? && IsProtected(r.value) { return None; }
      req := Some(Borrar(id));
    }

    /** `resetForm` (also `cancelarEdicion`): edit mode off, no id, both fields empty. */
    method ResetForm()
      modifies this
      ensures !editando && editId.None? && form == RoleFields("", "")
      ensures rows == old(rows) && msgs == old(msgs) && saving == old(saving) && confirm == old(confirm)
    {
      editando := false;
      editId := None;
      form := RoleFields("", "");
    }
  }

  /** The lookup finds the first listed role with an id; so, by `DoEliminarConfirmado`, a
      confirmed delete of a protected role's id is never sent when that role is the first
      listed under it (in particular when ids are unique). */
  lemma FindRowFirst(rows: seq<Rol>, k: nat)
    requires k < |rows|
    requires forall j :: 0 <= j < k ==> rows[j].idRol != rows[k].idRol
    ensures FindRow(rows, rows[k].idRol) == Some(rows[k])
  {
    var r := FindRow(rows, rows[k].idRol);
    var m :| 0 <= m < |rows| && rows[m] == r.value && (forall j :: 0 <= j < m ==> rows[j].idRol != rows[k].idRol);
    assert m == k;
  }
}
