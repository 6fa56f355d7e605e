/**
 * The permissions screen: the four S/N flags the checkboxes drive, the profile selector
 * whose option values are the JSON text `{"id_perfil":N,"perfil_rol":M}`, the fail-fast
 * checks of `submit` and the single-entry body it posts.
 */
module Permisos {
  import opened Wrappers
  import opened Text
  import opened Feedback

  datatype SN = S | N

  /** The checkbox controls. */
  datatype Flag = PuedeCrear | PuedeLeer | PuedeActualizar | PuedeEliminar

  /** `checked ? 'S' : 'N'` */
  function FlagValue(checked: bool): (r: SN)
    ensures r == S <==> checked
  {
    if checked then S else N
  }

  // ------------------------------------------------------------------ the profile option value

  const ID_KEY: string := "{\"id_perfil\":"
  const ROL_KEY: string := "\"perfil_rol\":"

  /** `JSON.stringify({ id_perfil: id, perfil_rol: rol })` for integer fields. */
  function PerfilJson(id: int, rol: int): string {
    ID_KEY + IntToString(id) + "," + ROL_KEY + IntToString(rol) + "}"
  }

  /** A JSON integer: an optional minus sign and digits without a leading zero. */
  function ParseInt(s: string): (r: Option<int>)
    ensures r.Some? ==> IntToString(r.value) == s
  {
    if s != [] && s[0] == '-' && ParseNat(s[1..]).Some? && IntToString(-(ParseNat(s[1..]).value as int)) == s then
      Some(-(ParseNat(s[1..]).value as int))
    else if ParseNat(s).Some? && NatToString(ParseNat(s).value) == s then
      Some(ParseNat(s).value)
    else None
  }

  lemma ParseIntToString(i: int)
    ensures ParseInt(IntToString(i)) == Some(i)
  {
    if i < 0 {
      assert IntToString(i)[1..] == NatToString(-i);
      ParseNatToString(-i);
    } else {
      ParseNatToString(i);
    }
  }

  /** The text after the prefix `p`, if `s` starts with it. */
  function AfterPrefix(p: string, s: string): (r: Option<string>)
    ensures r.Some? ==> s == p + r.value
  {
    if |p| <= |s| && s[..|p|] == p then Some(s[|p|..]) else None
  }

  lemma AfterPrefixOf(p: string, t: string)
    ensures AfterPrefix(p, p + t) == Some(t)
  {
    assert (p + t)[..|p|] == p;
  }

  /** The texts before and after the first comma, if there is one. */
  function AtFirstComma(m: string): (r: Option<(string, string)>)
    ensures r.Some? ==> m == r.value.0 + "," + r.value.1 && ',' !in r.value.0
  {
    if ',' !in m then None
    else
      var k := IndexOf(m, ',');
      assert m == m[..k] + "," + m[k + 1..];
      Some((m[..k], m[k + 1..]))
  }

  lemma AtFirstCommaOf(a: string, b: string)
    requires ',' !in a
    ensures AtFirstComma(a + "," + b) == Some((a, b))
  {
    IndexOfAfter(a, ',', b);
    var m := a + "," + b;
    assert m == a + [','] + b;
    assert m[..|a|] == a && m[|a| + 1..] == b;
  }

  /** `JSON.parse` on the option values the selector offers: the exact text
      `{"id_perfil":N,"perfil_rol":M}` gives the two numbers; any other text fails. */
  function ParsePerfil(s: string): (r: Option<(int, int)>)
    ensures r.Some? ==> s == PerfilJson(r.value.0, r.value.1)
  {
    if s == [] || s[|s| - 1] != '}' then None
    else
      var inner := s[..|s| - 1];
      assert s == inner + "}";
      var m := AfterPrefix(ID_KEY, inner);
      if m.None? then None
      else
        var parts := AtFirstComma(m.value);
        if parts.None? then None
        else
          var b := AfterPrefix(ROL_KEY, parts.value.1);
          if b.None? then None
          else
            var id, rol := ParseInt(parts.value.0), ParseInt(b.value);
            if id.None? || rol.None? then None
            else
              Reassemble(ID_KEY, parts.value.0, ROL_KEY, b.value);
              Some((id.value, rol.value))
  }

  lemma Reassemble(p1: string, h: string, p2: string, t: string)
    ensures (p1 + (h + "," + (p2 + t))) + "}" == p1 + h + "," + p2 + t + "}"
  {
  }

  lemma IntToStringNoComma(i: int)
    ensures ',' !in IntToString(i)
  {
    var a := IntToString(i);
    if i < 0 { assert a[1..] == NatToString(-i); }
    forall k | 0 <= k < |a| ensures a[k] != ',' {
      if i < 0 && k > 0 { assert a[k] == NatToString(-i)[k - 1]; }
    }
  }

  /** The selector's option values read back as the profile they were made from. */
  lemma ParsePerfilJson(id: int, rol: int)
    ensures ParsePerfil(PerfilJson(id, rol)) == Some((id, rol))
  {
    IntToStringNoComma(id);
    ParseIntToString(id);
    ParseIntToString(rol);
    ParsePerfilParts(IntToString(id), IntToString(rol));
  }

  /** The text the selector builds from two number texts parses to their values. */
  lemma ParsePerfilParts(a: string, b: string)
    requires ',' !in a && ParseInt(a).Some? && ParseInt(b).Some?
    ensures ParsePerfil(ID_KEY + a + "," + ROL_KEY + b + "}") == Some((ParseInt(a).value, ParseInt(b).value))
  {
    var m := a + "," + (ROL_KEY + b);
    var s := ID_KEY + a + "," + ROL_KEY + b + "}";
    Reassemble(ID_KEY, a, ROL_KEY, b);
    assert s[..|s| - 1] == ID_KEY + m && s[|s| - 1] == '}';
    AfterPrefixOf(ID_KEY, m);
    AtFirstCommaOf(a, ROL_KEY + b);
    AfterPrefixOf(ROL_KEY, b);
  }

  /** Two texts parse to the same profile only if they are the same text. */
  lemma PerfilJsonInjective(id1: int, rol1: int, id2: int, rol2: int)
    ensures PerfilJson(id1, rol1) == PerfilJson(id2, rol2) <==> id1 == id2 && rol1 == rol2
  {
    if PerfilJson(id1, rol1) == PerfilJson(id2, rol2) {
      ParsePerfilJson(id1, rol1);
      ParsePerfilJson(id2, rol2);
    }
  }

  // ------------------------------------------------------------------ the checks and the body

  datatype PermisoForm = PermisoForm(
    perfilJson: string,
    codigoFormulario: string,
    puedeCrear: SN,
    puedeLeer: SN,
    puedeActualizar: SN,
    puedeEliminar: SN)

  datatype PermisoEntry = PermisoEntry(
    codigoFormulario: nat,
    puedeCrear: SN,
    puedeLeer: SN,
    puedeActualizar: SN,
    puedeEliminar: SN)

  datatype PermisoBody = PermisoBody(idPerfil: nat, perfilRol: nat, permisos: seq<PermisoEntry>)

  datatype PermisoError = NoPerfil | NoFormulario | BadPerfil | BadRol | BadFormulario

  function Describe(e: PermisoError): string {
    match e
    case NoPerfil => "Debes seleccionar un perfil."
    case NoFormulario => "Debes seleccionar un formulario."
    case BadPerfil => "Perfil inválido."
    case BadRol => "Rol de perfil inválido."
    case BadFormulario => "Formulario inválido."
  }

  /** `Number(codigoFormulario)` when it is a positive integer. */
  function FormCode(s: string): Option<nat> {
    if ParseNat(s).Some? && ParseNat(s).value > 0 then ParseNat(s) else None
  }

  /** The checks of `submit`, in order, and the body they let through. */
  function CheckPermiso(f: PermisoForm): (r: Result<PermisoBody, PermisoError>)
    ensures r == Err(NoPerfil) <==> f.perfilJson == ""
    ensures r == Err(NoFormulario) <==> f.perfilJson != "" && f.codigoFormulario == ""
    ensures r == Err(BadPerfil) <==>
      f.perfilJson != "" && f.codigoFormulario != "" &&
      (ParsePerfil(f.perfilJson).None? || ParsePerfil(f.perfilJson).value.0 <= 0)
    ensures r == Err(BadRol) <==>
      f.perfilJson != "" && f.codigoFormulario != "" &&
      ParsePerfil(f.perfilJson).Some? && ParsePerfil(f.perfilJson).value.0 > 0 && ParsePerfil(f.perfilJson).value.1 <= 0
    ensures r.Ok? <==>
      f.perfilJson != "" && ParsePerfil(f.perfilJson).Some? &&
      ParsePerfil(f.perfilJson).value.0 > 0 && ParsePerfil(f.perfilJson).value.1 > 0 && FormCode(f.codigoFormulario).Some?
    ensures r.Ok? ==>
      f.perfilJson == PerfilJson(r.value.idPerfil, r.value.perfilRol) &&
      r.value.idPerfil > 0 && r.value.perfilRol > 0 &&
      r.value.permisos == [PermisoEntry(FormCode(f.codigoFormulario).value,
        f.puedeCrear, f.puedeLeer, f.puedeActualizar, f.puedeEliminar)]
  {
    if f.perfilJson == "" then Err(NoPerfil)
    else if f.codigoFormulario == "" then Err(NoFormulario)
    else
      var p := ParsePerfil(f.perfilJson);
      if p.None? || p.value.0 <= 0 then Err(BadPerfil)
      else if p.value.1 <= 0 then Err(BadRol)
      else
        var cod := FormCode(f.codigoFormulario);
        if cod.None? then Err(BadFormulario)
        else
          Ok(PermisoBody(p.value.0, p.value.1,
            [PermisoEntry(cod.value, f.puedeCrear, f.puedeLeer, f.puedeActualizar, f.puedeEliminar)]))
  }

  /** Choosing a listed profile with positive id and role and a listed form with a positive
      code always passes, and the body grants exactly the four flags on that form. */
  lemma SelectedOptionsAccepted(id: nat, rol: nat, cod: nat, c: SN, l: SN, a: SN, e: SN)
    requires id > 0 && rol > 0 && cod > 0
    ensures CheckPermiso(PermisoForm(PerfilJson(id, rol), NatToString(cod), c, l, a, e)) ==
      Ok(PermisoBody(id, rol, [PermisoEntry(cod, c, l, a, e)]))
  {
    ParsePerfilJson(id, rol);
    ParseNatToString(cod);
  }

  // ------------------------------------------------------------------ the screen

  class PermisoScreen {
    var form: PermisoForm
    var msgs: Messages
    var saving: bool

    constructor ()
      ensures form == PermisoForm("", "", N, N, N, N) && msgs == NoMessages && !saving
    {
      form := PermisoForm("", "", N, N, N, N);
      msgs := NoMessages;
      saving := false;
    }

    /** `toggle(ctrl, ev)`: the control becomes 'S' exactly when its box is checked; the
        other controls keep their values. */
    method Toggle(ctrl: Flag, checked: bool)
      modifies this
      ensures form.perfilJson == old(form).perfilJson && form.codigoFormulario == old(form).codigoFormulario
      ensures form.puedeCrear == (if ctrl == PuedeCrear then FlagValue(checked) else old(form).puedeCrear)
      ensures form.puedeLeer == (if ctrl == PuedeLeer then FlagValue(checked) else old(form).puedeLeer)
      ensures form.puedeActualizar == (if ctrl == PuedeActualizar then FlagValue(checked) else old(form).puedeActualizar)
      ensures form.puedeEliminar == (if ctrl == PuedeEliminar then FlagValue(checked) else old(form).puedeEliminar)
      ensures msgs == old(msgs) && saving == old(saving)
    {
      var v := FlagValue(checked);
      match ctrl
      case PuedeCrear => form := form.(puedeCrear := v);
      case PuedeLeer => form := form.(puedeLeer := v);
      case PuedeActualizar => form := form.(puedeActualizar := v);
      case PuedeEliminar => form := form.(puedeEliminar := v);
    }

    /** `submit`: nothing while saving; a failed check goes to the inline message with
        `saving` left off; otherwise all messages clear, `saving` turns on and the body goes
        out. */
    method Submit() returns (body: Option<PermisoBody>)
      modifies this
      ensures old(saving) ==> body.None? && saving && msgs == old(msgs)
      ensures !old(saving) && CheckPermiso(old(form)).Err? ==>
        body.None? && !saving && msgs == InlineOnly(Describe(CheckPermiso(old(form)).error))
      ensures !old(saving) && CheckPermiso(old(form)).Ok? ==>
        body == Some(CheckPermiso(old(form)).value) && saving && msgs == NoMessages
      ensures form == old(form)
    {
      if saving { return None; }
      var r := CheckPermiso(form);
      if r.Err? {
        msgs := InlineOnly(Describe(r.error));
        return None;
      }
      saving := true;
      msgs := NoMessages;
      body := Some(r.value);
    }

    /** The post's success callback: the server's message or the default one, and the form
        back to its initial values. */
    method OnSaved(message: string)
      modifies this
      ensures msgs == OkOnly(if message != "" then message else "Permiso asignado correctamente")
      ensures form == PermisoForm("", "", N, N, N, N) && saving == old(saving)
    {
      msgs := OkOnly(if message != "" then message else "Permiso asignado correctamente");
      ResetForm();
    }

    /** The post's error callback. */
    method OnSaveError(message: string)
      modifies this
      ensures msgs == ErrorOnly(if message != "" then message else "Error al asignar permiso")
      ensures form == old(form) && saving == old(saving)
    {
      msgs := ErrorOnly(if message != "" then message else "Error al asignar permiso");
    }

    /** The post's completion callback. */
    method OnComplete()
      modifies this
      ensures !saving && form == old(form) && msgs == old(msgs)
    {
      saving := false;
    }

    /** A failed post as written: an Observable that errors does not complete, so only the
        error callback runs and `saving` stays on; the next `submit` then sends nothing,
        whatever the form holds, and so does every later one. */
    method SubmitAfterFailedSave(message: string) returns (body: Option<PermisoBody>)
      requires saving
      modifies this
      ensures body.None? && saving
      ensures msgs == ErrorOnly(if message != "" then message else "Error al asignar permiso")
      ensures form == old(form)
    {
      OnSaveError(message);
      body := Submit();
    }

    /** The error callback as evidently intended (the work of a `finalize`): the error
        message as before, and `saving` ends as it does after a completed post. */
    method OnSaveErrorSettled(message: string)
      modifies this
      ensures msgs == ErrorOnly(if message != "" then message else "Error al asignar permiso")
      ensures form == old(form) && !saving
    {
      OnSaveError(message);
      saving := false;
    }

    /** After the settled error callback, the next `submit` is judged by the form alone: a
        form that passes the checks is sent again, one that fails shows its message. */
    method SubmitAfterSettledFailure(message: string) returns (body: Option<PermisoBody>)
      modifies this
      ensures CheckPermiso(old(form)).Ok? ==>
        body == Some(CheckPermiso(old(form)).value) && saving && msgs == NoMessages
      ensures CheckPermiso(old(form)).Err? ==>
        body.None? && !saving && msgs == InlineOnly(Describe(CheckPermiso(old(form)).error))
      ensures form == old(form)
    {
      OnSaveErrorSettled(message);
      body := Submit();
    }

    /** `resetForm`: both selectors empty and every flag 'N'. */
    method ResetForm()
      modifies this
      ensures form == PermisoForm("", "", N, N, N, N)
      ensures msgs == old(msgs) && saving == old(saving)
    {
      form := PermisoForm("", "", N, N, N, N);
    }
  }
}
