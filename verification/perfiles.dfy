/**
 * The profiles screen: the check chain of `submit` (with its own letters-only name pattern
 * and the role selector read as a positive integer), the body, the guards that keep the
 * protected 'administrador supremo' profile out of editing and deletion, and the edit and
 * confirmation state.
 */
module Perfiles {
  import opened Wrappers
  import opened Text
  import opened Feedback
  import opened Confirm
  import opened Canon

  const NOMBRE_MAX: nat := 100
  const DESC_MAX: nat := 255

  /** A profile as the list holds it; a profile is identified by its id together with its
      role. */
  datatype Perfil = Perfil(id: int, nombre: string, descripcion: Option<string>, rol: int)

  datatype ProfileKey = ProfileKey(id: int, rol: int)

  /** The form: the role selector holds the role id as text, '' when nothing is chosen. */
  datatype ProfileFields = ProfileFields(nombre: string, descripcion: string, rol: string)

  /** `isProtected(p)`: the profile's canonical name is 'administrador supremo'. */
  predicate IsProtected(p: Perfil) {
    IsProtectedProfile(p.nombre)
  }

  /** `/^[A-Za-zÁÉÍÓÚáéíóúÑñ\s]+$/`: letters and whitespace only, no '-' or '.'. */
  predicate MatchesLettersPattern(s: string) {
    s != [] && forall i :: 0 <= i < |s| ==> IsAsciiLetter(s[i]) || IsAccentedLetter(s[i]) || IsSpace(s[i])
  }

  /** Every name the profiles pattern accepts is also a name the other screens accept. */
  lemma LettersPatternIsNamePattern(s: string)
    requires MatchesLettersPattern(s)
    ensures MatchesNamePattern(s)
  {
  }

  /** `Number(rol)` when it is a positive integer: the selector's value read as a decimal
      number greater than zero. */
  function RolNumber(rol: string): (r: Option<nat>)
    ensures r.Some? ==> r.value > 0 && AllDigits(rol) && DigitsValue(rol) == r.value
    ensures r.None? ==> rol == [] || !AllDigits(rol) || DigitsValue(rol) == 0
  {
    match ParseNat(rol)
    case Some(v) => if v > 0 then Some(v) else None
    case None => None
  }

  /** The selector as `editar` fills it, `String(p.rol)`, reads back as that role exactly
      when the role is positive. */
  lemma RolNumberOfEdited(rol: int)
    ensures RolNumber(IntToString(rol)).Some? <==> rol > 0
    ensures rol > 0 ==> RolNumber(IntToString(rol)) == Some(rol)
  {
    if rol < 0 {
      assert IntToString(rol)[0] == '-';
    } else {
      ParseNatToString(rol);
    }
  }

  datatype ProfileError = NoNombre | BadNombre | LongNombre | NoRol | BadRol | LongDescripcion

  function Describe(e: ProfileError): string {
    match e
    case NoNombre => "El nombre es obligatorio."
    case BadNombre => "El nombre del perfil solo debe contener letras y espacios."
    case LongNombre => "El nombre admite máximo 100 caracteres."
    case NoRol => "Debes seleccionar un rol."
    case BadRol => "Rol inválido."
    case LongDescripcion => "La descripción admite máximo 255 caracteres."
  }

  /** The checks of `submit`, in their order, on the normalised name and description and
      the raw selector value. */
  function CheckProfile(nombre: string, descripcion: string, rol: string): Option<ProfileError> {
    if nombre == "" then Some(NoNombre)
    else if !MatchesLettersPattern(nombre) then Some(BadNombre)
    else if |nombre| > NOMBRE_MAX then Some(LongNombre)
    else if rol == "" then Some(NoRol)
    else if RolNumber(rol).None? then Some(BadRol)
    else if |descripcion| > DESC_MAX then Some(LongDescripcion)
    else None
  }

  /** The form goes ahead exactly for a letters-only name within 100 characters, a chosen
      positive role and a description within 255 characters. */
  lemma CheckProfileAcceptsIff(nombre: string, descripcion: string, rol: string)
    ensures CheckProfile(nombre, descripcion, rol).None? <==>
      MatchesLettersPattern(nombre) && |nombre| <= NOMBRE_MAX && RolNumber(rol).Some? &&
      |descripcion| <= DESC_MAX
    ensures CheckProfile(nombre, descripcion, rol) == Some(NoRol) <==>
      MatchesLettersPattern(nombre) && |nombre| <= NOMBRE_MAX && rol == ""
  {
  }

  datatype ProfileBody = ProfileBody(nombre: string, descripcion: string, rol: nat)

  /** The body: the normalised texts and the role as a number. */
  function BodyOf(f: ProfileFields): (b: ProfileBody)
    requires CheckProfile(Normalize(f.nombre), Normalize(f.descripcion), f.rol).None?
    ensures b.nombre == Normalize(f.nombre) && MatchesLettersPattern(b.nombre) && WellSpaced(b.nombre)
    ensures b.descripcion == Normalize(f.descripcion) && |b.descripcion| <= DESC_MAX
    ensures b.rol > 0 && RolNumber(f.rol) == Some(b.rol)
  {
    ProfileBody(Normalize(f.nombre), Normalize(f.descripcion), RolNumber(f.rol).value)
  }

  datatype ProfileRequest =
    | Crear(body: ProfileBody)
    | Actualizar(id: int, rol: int, body: ProfileBody)
    | Borrar(key: ProfileKey)

  /** The message a failed delete shows: for a 409, the server's text or the default of the
      protected and in-use codes; otherwise the server's text or a generic one. */
  function DeleteErrorMessage(status: int, code: string, message: string): (r: string)
    ensures message != "" ==> r == message
    ensures message == "" && status == 409 && code == "PROFILE_PROTECTED" ==>
      r == "Este perfil está protegido y no se puede eliminar."
    ensures message == "" && status == 409 && code == "PROFILE_IN_USE" ==>
      r == "No se puede eliminar: el perfil está en uso."
    ensures message == "" && !(status == 409 && code in {"PROFILE_PROTECTED", "PROFILE_IN_USE"}) ==>
      r == "Error al eliminar el perfil."
  {
    if status == 409 && code == "PROFILE_PROTECTED" then
      (if message != "" then message else "Este perfil está protegido y no se puede eliminar.")
    else if status == 409 && code == "PROFILE_IN_USE" then
      (if message != "" then message else "No se puede eliminar: el perfil está en uso.")
    else if message != "" then message else "Error al eliminar el perfil."
  }

  class ProfileScreen {
    var form: ProfileFields
    var msgs: Messages
    var saving: bool
    var editando: bool
    var editId: Option<int>
    var editRolId: Option<int>
    var confirm: Modal<ProfileKey>

    constructor ()
      ensures form == ProfileFields("", "", "") && msgs == NoMessages && !saving
      ensures !editando && editId.None? && editRolId.None? && confirm == Closed()
    {
      form := ProfileFields("", "", "");
      msgs := NoMessages;
      saving, editando := false, false;
      editId, editRolId := None, None;
      confirm := Closed();
    }

    /** `submit`: nothing while saving; the first failed check goes to the inline message
        with `saving` left off; otherwise `saving` turns on, all messages clear and the body
        goes out, as an update of the edited id and role when both are known and as a
        creation otherwise. */
    method Submit() returns (req: Option<ProfileRequest>)
      modifies this
      ensures old(saving) ==> req.None? && saving && msgs == old(msgs)
      ensures !old(saving) && CheckProfile(Normalize(old(form).nombre), Normalize(old(form).descripcion), old(form).rol).Some? ==>
        req.None? && !saving &&
        msgs == InlineOnly(Describe(CheckProfile(Normalize(old(form).nombre), Normalize(old(form).descripcion), old(form).rol).value))
      ensures !old(saving) && CheckProfile(Normalize(old(form).nombre), Normalize(old(form).descripcion), old(form).rol).None? ==>
        saving && msgs == NoMessages &&
        req == Some(if old(editando) && old(editId).Some? && old(editRolId).Some?
                    then Actualizar(old(editId).value, old(editRolId).value, BodyOf(old(form)))
                    else Crear(BodyOf(old(form))))
      ensures form == old(form) && editando == old(editando) && editId == old(editId)
      ensures editRolId == old(editRolId) && confirm == old(confirm)
    {
      if saving { return None; }
      var err := CheckProfile(Normalize(form.nombre), Normalize(form.descripcion), form.rol);
      if err.Some? {
        msgs := InlineOnly(Describe(err.value));
        return None;
      }
      saving := true;
      msgs := NoMessages;
      if editando && editId.Some? && editRolId.Some? {
        req := Some(Actualizar(editId.value, editRolId.value, BodyOf(form)));
      } else {
        req := Some(Crear(BodyOf(form)));
      }
    }

    /** `editar(p)`: a protected profile is left alone; any other is loaded into the form in
        edit mode, its role written into the selector as text. */
    method Editar(p: Perfil)
      modifies this
      ensures IsProtected(p) ==>
        form == old(form) && editando == old(editando) && editId == old(editId) && editRolId == old(editRolId)
      ensures !IsProtected(p) ==>
        editando && editId == Some(p.id) && editRolId == Some(p.rol) &&
        form == ProfileFields(p.nombre, p.descripcion.GetOr(""), IntToString(p.rol))
      ensures msgs == old(msgs) && saving == old(saving) && confirm == old(confirm)
    {
      if IsProtected(p) { return; }
      editando := true;
      editId, editRolId := Some(p.id), Some(p.rol);
      form := ProfileFields(p.nombre, p.descripcion.GetOr(""), IntToString(p.rol));
    }

    /** `confirmarEliminar(p)`: a protected profile is left alone; any other is asked
        about. */
    method ConfirmarEliminar(p: Perfil)
      modifies this
      ensures IsProtected(p) ==> confirm == old(confirm)
      ensures !IsProtected(p) ==> confirm == Ask(ProfileKey(p.id, p.rol))
      ensures form == old(form) && msgs == old(msgs) && saving == old(saving)
      ensures editando == old(editando) && editId == old(editId) && editRolId == old(editRolId)
    {
      if IsProtected(p) { return; }
      confirm := Ask(ProfileKey(p.id, p.rol));
    }

    method CloseConfirm()
      modifies this
      ensures confirm == Closed()
      ensures form == old(form) && msgs == old(msgs) && saving == old(saving)
      ensures editando == old(editando) && editId == old(editId) && editRolId == old(editRolId)
    {
      confirm := Closed();
    }

    /** `doEliminarConfirmado`: the modal closes; the delete goes out for the pending
        profile, if there was one. */
    method DoEliminarConfirmado() returns (req: Option<ProfileRequest>)
      modifies this
      ensures confirm == Closed()
      ensures old(confirm).pending.None? ==> req.None?
      ensures old(confirm).pending.Some? ==> req == Some(Borrar(old(confirm).pending.value))
      ensures form == old(form) && msgs == old(msgs) && saving == old(saving)
      ensures editando == old(editando) && editId == old(editId) && editRolId == old(editRolId)
    {
      var (key, m) := Confirmed(confirm);
      confirm := m;
      req := if key.Some? then Some(Borrar(key.value)) else None;
    }

    /** The delete's error callback. */
    method OnDeleteError(status: int, code: string, message: string)
      modifies this
      ensures msgs == ErrorOnly(DeleteErrorMessage(status, code, message))
      ensures form == old(form) && saving == old(saving) && editando == old(editando)
      ensures editId == old(editId) && editRolId == old(editRolId) && confirm == old(confirm)
    {
      msgs := ErrorOnly(DeleteErrorMessage(status, code, message));
    }

    /** `resetForm` (also `cancelarEdicion`): edit mode off, no id or role, empty form. */
    method ResetForm()
      modifies this
      ensures !editando && editId.None? && editRolId.None? && form == ProfileFields("", "", "")
      ensures msgs == old(msgs) && saving == old(saving) && confirm == old(confirm)
    {
      editando := false;
      editId, editRolId := None, None;
      form := ProfileFields("", "", "");
    }
  }
}
