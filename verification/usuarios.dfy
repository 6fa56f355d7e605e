/**
 * The users screen: the normalisation `submit` applies to the form (every text trimmed,
 * names with their whitespace runs collapsed, the e-mail lowercased), its fail-fast check
 * chain, the request body, and the edit and delete-confirm state.
 */
module Usuarios {
  import opened Wrappers
  import opened Text
  import opened Feedback

  // ------------------------------------------------------------------ patterns

  predicate IsIdentChar(c: char) {
    IsAsciiLetter(c) || IsDigit(c) || c == '.' || c == '-'
  }

  /** `/^[A-Za-z0-9.\-]+$/.test(s)`. */
  predicate MatchesIdentPattern(s: string) {
    s != [] && forall i :: 0 <= i < |s| ==> IsIdentChar(s[i])
  }

  /** A run of the e-mail pattern's `[^\s@]`. */
  predicate Plain(s: string) {
    forall i :: 0 <= i < |s| ==> !IsSpace(s[i]) && s[i] != '@'
  }

  /** The domain after the '@': a '.' with at least one character before it and two after. */
  predicate DomainValid(d: string) {
    exists j :: 1 <= j < |d| - 2 && d[j] == '.'
  }

  /** `/^[^\s@]+@[^\s@]+\.[^\s@]{2,}$/i.test(s)`, checked the way one reads it: no
      whitespace, a single '@' after a non-empty local part, and a valid domain. */
  predicate MatchesEmailPattern(s: string) {
    NoSpaces(s) && '@' in s &&
    var k := IndexOf(s, '@');
    k > 0 && '@' !in s[k + 1..] && DomainValid(s[k + 1..])
  }

  /** The pattern's own shape: `local@name.tld` with `local` and `name` non-empty, `tld` at
      least two characters, and none of them holding whitespace or '@'. */
  predicate EmailParts(s: string, local: string, name: string, tld: string) {
    s == local + "@" + name + "." + tld && |local| >= 1 && |name| >= 1 && |tld| >= 2 &&
    Plain(local) && Plain(name) && Plain(tld)
  }

  /** A text the check accepts has the pattern's shape. */
  lemma EmailCheckHasParts(s: string)
    requires MatchesEmailPattern(s)
    ensures exists l, n, t :: EmailParts(s, l, n, t)
  {
    var k := IndexOf(s, '@');
    var d := s[k + 1..];
    var j :| 1 <= j < |d| - 2 && d[j] == '.';
    var l, n, t := s[..k], d[..j], d[j + 1..];
    CutAround(s, k);
    CutAround(d, j);
    PlainAround(s, k);
    PlainSlice(d, 0, j);
    PlainSlice(d, j + 1, |d|);
    assert s == l + "@" + (n + "." + t) by {
      assert [s[k]] == "@" && [d[j]] == ".";
    }
    assert |l| >= 1 && |n| >= 1 && |t| >= 2;
    assert EmailParts(s, l, n, t);
  }

  /** A text is what comes before position `k`, the character there, and what follows. */
  lemma CutAround(s: string, k: nat)
    requires k < |s|
    ensures s == s[..k] + [s[k]] + s[k + 1..]
  {
  }

  /** Around its only '@', a text without whitespace is two runs of `[^\s@]`. */
  lemma PlainAround(s: string, k: nat)
    requires NoSpaces(s) && k < |s| && '@' !in s[..k] && '@' !in s[k + 1..]
    ensures Plain(s[..k]) && Plain(s[k + 1..])
  {
    var a, b := s[..k], s[k + 1..];
    forall i | 0 <= i < |a| ensures !IsSpace(a[i]) && a[i] != '@' {
      assert a[i] == s[i];
    }
    forall i | 0 <= i < |b| ensures !IsSpace(b[i]) && b[i] != '@' {
      assert b[i] == s[k + 1 + i];
    }
  }

  lemma PlainSlice(s: string, i: nat, j: nat)
    requires Plain(s) && i <= j <= |s|
    ensures Plain(s[i..j])
  {
    assert forall m :: 0 <= m < j - i ==> s[i..j][m] == s[i + m];
  }

  /** The characters of `local@name.tld`, none of whose parts holds '@' or whitespace. */
  lemma EmailPartsChars(s: string, l: string, n: string, t: string)
    requires EmailParts(s, l, n, t)
    ensures NoSpaces(s) && s[|l|] == '@' && '@' !in l && '@' !in n + "." + t
    ensures s == l + "@" + (n + "." + t)
  {
    var d := n + "." + t;
    assert s == l + "@" + d;
    forall i | 0 <= i < |d| ensures d[i] != '@' && !IsSpace(d[i]) {
      if i < |n| { assert d[i] == n[i]; } else if i > |n| { assert d[i] == t[i - |n| - 1]; }
    }
    forall i | 0 <= i < |s| ensures !IsSpace(s[i]) {
      if i < |l| { assert s[i] == l[i]; } else if i > |l| { assert s[i] == d[i - |l| - 1]; }
    }
  }

  /** A text of the pattern's shape passes the check. */
  lemma EmailPartsPassCheck(s: string, l: string, n: string, t: string)
    requires EmailParts(s, l, n, t)
    ensures MatchesEmailPattern(s)
  {
    var d := n + "." + t;
    EmailPartsChars(s, l, n, t);
    IndexOfAfter(l, '@', d);
    assert s[|l| + 1..] == d;
    assert d[|n|] == '.';
  }

  /** The check accepts exactly the texts the regular expression matches. */
  lemma EmailPatternIff(s: string)
    ensures MatchesEmailPattern(s) <==> exists l, n, t :: EmailParts(s, l, n, t)
  {
    if MatchesEmailPattern(s) {
      EmailCheckHasParts(s);
    }
    if exists l, n, t :: EmailParts(s, l, n, t) {
      var l, n, t :| EmailParts(s, l, n, t);
      EmailPartsPassCheck(s, l, n, t);
    }
  }

  // ------------------------------------------------------------------ the form

  /** The form's values. `perfilRol` and `perfilId` are the selects' values read with
      `Number`, 0 while nothing is selected. */
  datatype UserFields = UserFields(
    tipo: string, identificacion: string, nombre: string, apellido1: string, apellido2: string,
    correo: string, contrasennia: string, perfilId: int, perfilRol: int)

  const BlankUser: UserFields := UserFields("", "", "", "", "", "", "", 0, 0)

  /** `S(v)`: the value as text, trimmed. */
  function S(v: string): string {
    Trim(v)
  }

  /** The values `submit` checks: every text trimmed, the names also with whitespace runs
      collapsed to one space, the e-mail lowercased; the password as typed. */
  function Normalized(f: UserFields): UserFields {
    UserFields(S(f.tipo), S(f.identificacion), Normalize(f.nombre), Normalize(f.apellido1),
               Normalize(f.apellido2), ToLower(S(f.correo)), f.contrasennia, f.perfilId, f.perfilRol)
  }

  /** No normalised text has whitespace at either end, names are single-spaced, and the
      e-mail holds no upper-case letter. */
  lemma NormalizedShape(f: UserFields)
    ensures var g := Normalized(f);
      WellSpaced(g.nombre) && WellSpaced(g.apellido1) && WellSpaced(g.apellido2) &&
      (g.tipo != [] ==> !IsSpace(g.tipo[0]) && !IsSpace(g.tipo[|g.tipo| - 1])) &&
      (g.identificacion != [] ==> !IsSpace(g.identificacion[0]) && !IsSpace(g.identificacion[|g.identificacion| - 1])) &&
      (g.correo != [] ==> !IsSpace(g.correo[0]) && !IsSpace(g.correo[|g.correo| - 1])) &&
      (forall i :: 0 <= i < |g.correo| ==> !IsUpperChar(g.correo[i])) &&
      g.contrasennia == f.contrasennia
  {
    TrimFacts(f.tipo);
    TrimFacts(f.identificacion);
    TrimFacts(f.correo);
  }

  datatype UserError =
    | NoTipo | NoIdentificacion | BadIdentificacion | BadNombre | BadApellido1 | BadApellido2
    | BadCorreo | ShortPassword | NoRol | NoPerfil

  function Describe(e: UserError): string {
    match e
    case NoTipo => "El tipo de identificación es obligatorio."
    case NoIdentificacion => "La identificación es obligatoria."
    case BadIdentificacion => "La identificación solo admite letras, números, puntos o guiones."
    case BadNombre => "El nombre solo puede contener letras, espacios, guiones y puntos."
    case BadApellido1 => "El apellido 1 solo puede contener letras, espacios, guiones y puntos."
    case BadApellido2 => "El apellido 2 solo puede contener letras, espacios, guiones y puntos."
    case BadCorreo => "Formato de correo inválido."
    case ShortPassword => "La contraseña debe tener al menos 3 caracteres."
    case NoRol => "Debes seleccionar un rol."
    case NoPerfil => "Debes seleccionar un perfil."
  }

  /** The checks of `submit`, in their order, on the normalised values `g`. */
  function CheckUser(g: UserFields, editando: bool): Option<UserError> {
    if g.tipo == "" then Some(NoTipo)
    else if g.identificacion == "" then Some(NoIdentificacion)
    else if !MatchesIdentPattern(g.identificacion) then Some(BadIdentificacion)
    else if !MatchesNamePattern(g.nombre) then Some(BadNombre)
    else if !MatchesNamePattern(g.apellido1) then Some(BadApellido1)
    else if g.apellido2 != "" && !MatchesNamePattern(g.apellido2) then Some(BadApellido2)
    else if !MatchesEmailPattern(g.correo) then Some(BadCorreo)
    else if !editando && |g.contrasennia| < 3 then Some(ShortPassword)
    else if g.perfilRol == 0 then Some(NoRol)
    else if g.perfilId == 0 then Some(NoPerfil)
    else None
  }

  /** `submit` goes ahead exactly when: a type, an identification of letters, digits, '.'
      and '-', a name and first surname matching the name pattern, a second surname that is
      empty or matches it, a valid e-mail, a password of at least 3 characters unless
      editing, and a role and a profile. */
  lemma CheckUserAcceptsIff(g: UserFields, editando: bool)
    ensures CheckUser(g, editando).None? <==>
      g.tipo != "" && MatchesIdentPattern(g.identificacion) &&
      MatchesNamePattern(g.nombre) && MatchesNamePattern(g.apellido1) &&
      (g.apellido2 == "" || MatchesNamePattern(g.apellido2)) &&
      (exists l, n, t :: EmailParts(g.correo, l, n, t)) &&
      (editando || |g.contrasennia| >= 3) && g.perfilRol != 0 && g.perfilId != 0
  {
    EmailPatternIff(g.correo);
  }

  /** The password length is checked only when creating: an edit never fails on it, and a
      creation with a short password that passes the earlier checks fails on it. */
  lemma PasswordOnlyOnCreate(g: UserFields)
    ensures CheckUser(g, true) != Some(ShortPassword)
    ensures |g.contrasennia| < 3 && CheckUser(g, true) !in {None, Some(NoRol), Some(NoPerfil)} ==>
      CheckUser(g, false) == CheckUser(g, true)
    ensures |g.contrasennia| < 3 && CheckUser(g, true) in {None, Some(NoRol), Some(NoPerfil)} ==>
      CheckUser(g, false) == Some(ShortPassword)
  {
  }

  /** The key that identifies a user in the request paths. */
  datatype UserKey = UserKey(tipo: string, id: string)

  datatype UserBody = UserBody(
    tipo: string, identificacion: string, nombre: string, apellido1: string, apellido2: Option<string>,
    correo: string, perfilId: int, perfilRol: int, contrasennia: Option<string>)

  /** The body sent for the normalised values `g`. */
  function BodyOf(g: UserFields, editando: bool): UserBody {
    UserBody(g.tipo, g.identificacion, g.nombre, g.apellido1,
             if g.apellido2 == "" then None else Some(g.apellido2),
             g.correo, g.perfilId, g.perfilRol,
             if editando && g.contrasennia == "" then None else Some(g.contrasennia))
  }

  /** The body leaves out an empty second surname; it always carries the password on a
      creation, and on an edit only when one was typed. */
  lemma BodyOptionalFields(g: UserFields, editando: bool)
    ensures BodyOf(g, editando).apellido2.None? <==> g.apellido2 == ""
    ensures BodyOf(g, editando).apellido2.Some? ==> BodyOf(g, editando).apellido2.value == g.apellido2
    ensures !editando ==> BodyOf(g, editando).contrasennia == Some(g.contrasennia)
    ensures editando ==> (BodyOf(g, editando).contrasennia.Some? <==> g.contrasennia != "")
    ensures BodyOf(g, editando).contrasennia.Some? ==> BodyOf(g, editando).contrasennia.value == g.contrasennia
  {
  }

  /** A user as the list shows it. */
  datatype Usuario = Usuario(
    tipo: string, identificacion: string, nombre: string, apellido1: string, apellido2: Option<string>,
    correo: string, perfilId: int, perfilRol: int)

  datatype UserRequest = Crear(body: UserBody) | Actualizar(key: UserKey, body: UserBody)

  /** The delete-confirm modal: shown or not, its title and message, and the user waiting
      for confirmation. */
  datatype DeleteConfirm = DeleteConfirm(open: bool, title: string, message: string, pending: Option<UserKey>)

  class UserScreen {
    var form: UserFields
    var msgs: Messages
    var saving: bool
    var editando: bool
    var editingPK: Option<UserKey>
    var confirm: DeleteConfirm

    constructor ()
      ensures form == BlankUser && msgs == NoMessages
      ensures !saving && !editando && editingPK.None?
      ensures confirm == DeleteConfirm(false, "", "", None)
    {
      form := BlankUser;
      msgs := NoMessages;
      saving, editando := false, false;
      editingPK := None;
      confirm := DeleteConfirm(false, "", "", None);
    }

    /** `showInline`: the inline message set, the other two cleared. */
    method ShowInline(m: string)
      modifies this
      ensures msgs == InlineOnly(m)
      ensures form == old(form) && saving == old(saving) && editando == old(editando)
      ensures editingPK == old(editingPK) && confirm == old(confirm)
    {
      msgs := InlineOnly(m);
    }

    /** `submit`: nothing while saving; otherwise the normalised values are checked, the
        first failure goes to the inline message with `saving` left off, and on success the
        messages clear, `saving` turns on and the body goes out, as an update of the edited
        user or as a creation. */
    method Submit() returns (req: Option<UserRequest>)
      modifies this
      ensures old(saving) ==> req.None? && saving && msgs == old(msgs)
      ensures !old(saving) && CheckUser(Normalized(old(form)), old(editando)).Some? ==>
        req.None? && !saving && msgs == InlineOnly(Describe(CheckUser(Normalized(old(form)), old(editando)).value))
      ensures !old(saving) && CheckUser(Normalized(old(form)), old(editando)).None? ==>
        saving && msgs == NoMessages &&
        req == Some(if old(editando) && old(editingPK).Some?
                    then Actualizar(old(editingPK).value, BodyOf(Normalized(old(form)), old(editando)))
                    else Crear(BodyOf(Normalized(old(form)), old(editando))))
      ensures form == old(form) && editando == old(editando) && editingPK == old(editingPK) && confirm == old(confirm)
    {
      if saving { return None; }
      var g := Normalized(form);
      var err := CheckUser(g, editando);
      if err.Some? {
        ShowInline(Describe(err.value));
        return None;
      }
      saving := true;
      msgs := NoMessages;
      var body := BodyOf(g, editando);
      if editando && editingPK.Some? {
        req := Some(Actualizar(editingPK.value, body));
      } else {
        req := Some(Crear(body));
      }
    }

    /** `editar(u)`: edit mode on, the user's key kept for the update, the form loaded from
        the user with an empty password. */
    method Editar(u: Usuario)
      modifies this
      ensures editando && editingPK == Some(UserKey(u.tipo, u.identificacion))
      ensures form == UserFields(u.tipo, u.identificacion, u.nombre, u.apellido1, u.apellido2.GetOr(""),
                                 u.correo, "", u.perfilId, u.perfilRol)
      ensures msgs == old(msgs) && saving == old(saving) && confirm == old(confirm)
    {
      editando := true;
      editingPK := Some(UserKey(u.tipo, u.identificacion));
      form := UserFields(u.tipo, u.identificacion, u.nombre, u.apellido1, u.apellido2.GetOr(""),
                         u.correo, "", u.perfilId, u.perfilRol);
    }

    /** `confirmarEliminar(u)`: the user's key pending and the modal open with its title and
        a message naming the user. */
    method ConfirmarEliminar(u: Usuario)
      modifies this
      ensures confirm == DeleteConfirm(true, "Confirmar eliminación",
        "¿Seguro que deseas eliminar al usuario " + u.nombre + " " + u.apellido1 + "?",
        Some(UserKey(u.tipo, u.identificacion)))
      ensures form == old(form) && msgs == old(msgs) && saving == old(saving)
      ensures editando == old(editando) && editingPK == old(editingPK)
    {
      confirm := DeleteConfirm(true, "Confirmar eliminación",
        "¿Seguro que deseas eliminar al usuario " + u.nombre + " " + u.apellido1 + "?",
        Some(UserKey(u.tipo, u.identificacion)));
    }

    /** `closeConfirm`: the modal hidden and its texts cleared; the pending key stays. */
    method CloseConfirm()
      modifies this
      ensures confirm == DeleteConfirm(false, "", "", old(confirm).pending)
      ensures form == old(form) && msgs == old(msgs) && saving == old(saving)
      ensures editando == old(editando) && editingPK == old(editingPK)
    {
      confirm := confirm.(open := false, title := "", message := "");
    }

    /** `doEliminarConfirmado`: the pending key is taken and cleared and the modal closed
        before anything else; the delete goes out for that key, and nothing goes out when
        nothing was pending. */
    method DoEliminarConfirmado() returns (target: Option<UserKey>)
      modifies this
      ensures target == old(confirm).pending
      ensures confirm == DeleteConfirm(false, "", "", None)
      ensures form == old(form) && msgs == old(msgs) && saving == old(saving)
      ensures editando == old(editando) && editingPK == old(editingPK)
    {
      target := confirm.pending;
      confirm := confirm.(pending := None);
      CloseConfirm();
    }

    /** `resetForm` (also `cancelarEdicion`): edit mode off, no key, every field blank. */
    method ResetForm()
      modifies this
      ensures !editando && editingPK.None? && form == BlankUser
      ensures msgs == old(msgs) && saving == old(saving) && confirm == old(confirm)
    {
      editando := false;
      editingPK := None;
      form := BlankUser;
    }
  }
}
