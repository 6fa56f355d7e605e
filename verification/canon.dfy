/**
 * The canonical forms the roles and profiles screens compare names in, to recognise the
 * protected records: `normalize('NFD')` followed by removing the combining marks
 * U+0300–U+036F (so a precomposed accented letter becomes its base letter), then
 * `toLowerCase()`, then the screen's own whitespace treatment.
 */
module Canon {
  import opened Text

  /** A combining diacritical mark, `[̀-ͯ]`. */
  predicate IsCombiningMark(c: char) {
    '\U{0300}' <= c <= '\U{036F}'
  }

  /** The base letter NFD leaves in front of the marks, for the precomposed Latin-1 letters;
      every other character is its own base. */
  function BaseChar(c: char): char {
    if c < '\U{00C0}' || '\U{00FF}' < c then c
    else if c <= '\U{00C5}' then 'A'
    else if c == '\U{00C7}' then 'C'
    else if '\U{00C8}' <= c <= '\U{00CB}' then 'E'
    else if '\U{00CC}' <= c <= '\U{00CF}' then 'I'
    else if c == '\U{00D1}' then 'N'
    else if '\U{00D2}' <= c <= '\U{00D6}' then 'O'
    else if '\U{00D9}' <= c <= '\U{00DC}' then 'U'
    else if c == '\U{00DD}' then 'Y'
    else if '\U{00E0}' <= c <= '\U{00E5}' then 'a'
    else if c == '\U{00E7}' then 'c'
    else if '\U{00E8}' <= c <= '\U{00EB}' then 'e'
    else if '\U{00EC}' <= c <= '\U{00EF}' then 'i'
    else if c == '\U{00F1}' then 'n'
    else if '\U{00F2}' <= c <= '\U{00F6}' then 'o'
    else if '\U{00F9}' <= c <= '\U{00FC}' then 'u'
    else if c == '\U{00FD}' || c == '\U{00FF}' then 'y'
    else c
  }

  /** `s.normalize('NFD').replace(/[̀-ͯ]/g, '')`. */
  function StripAccents(s: string): (r: string)
    ensures |r| <= |s|
    decreases |s|
  {
    if s == [] then []
    else (if IsCombiningMark(s[0]) then [] else [BaseChar(s[0])]) + StripAccents(s[1..])
  }

  /** Stripping works character by character. */
  lemma {:induction false} StripAccentsConcat(a: string, b: string)
    ensures StripAccents(a + b) == StripAccents(a) + StripAccents(b)
    decreases |a|
  {
    if a == [] {
      assert a + b == b;
    } else {
      assert (a + b)[0] == a[0] && (a + b)[1..] == a[1..] + b;
      StripAccentsConcat(a[1..], b);
    }
  }

  /** Whitespace is neither a mark nor accented: it survives stripping unchanged. */
  lemma {:induction false} StripAccentsSpaces(w: string)
    requires forall i :: 0 <= i < |w| ==> IsSpace(w[i])
    ensures StripAccents(w) == w
    decreases |w|
  {
    if w != [] { StripAccentsSpaces(w[1..]); }
  }

  lemma ToLowerConcat(a: string, b: string)
    ensures ToLower(a + b) == ToLower(a) + ToLower(b)
  {
  }

  /** One character after stripping and lowercasing: a mark disappears, anything else
      becomes its lowercased base letter. */
  function FoldChar(c: char): string {
    if IsCombiningMark(c) then [] else [LowerChar(BaseChar(c))]
  }

  /** Accent stripping then lowercasing, the first two steps of both canonical forms,
      computed character by character. */
  function Folded(s: string): (r: string)
    ensures |r| <= |s|
    decreases |s|
  {
    if s == [] then [] else FoldChar(s[0]) + Folded(s[1..])
  }

  /** `Folded` is `toLowerCase` after the accent stripping. */
  lemma {:induction false} FoldedIsLowerOfStripped(s: string)
    ensures Folded(s) == ToLower(StripAccents(s))
    decreases |s|
  {
    if s != [] {
      FoldedIsLowerOfStripped(s[1..]);
      var head := if IsCombiningMark(s[0]) then [] else [BaseChar(s[0])];
      ToLowerConcat(head, StripAccents(s[1..]));
    }
  }

  lemma {:induction false} FoldedConcat(a: string, b: string)
    ensures Folded(a + b) == Folded(a) + Folded(b)
    decreases |a|
  {
    if a == [] {
      assert a + b == b;
    } else {
      assert (a + b)[0] == a[0] && (a + b)[1..] == a[1..] + b;
      FoldedConcat(a[1..], b);
    }
  }

  /** Whitespace goes through folding unchanged. */
  lemma {:induction false} FoldedSpaces(w: string)
    requires forall i :: 0 <= i < |w| ==> IsSpace(w[i])
    ensures Folded(w) == w
    decreases |w|
  {
    if w != [] { FoldedSpaces(w[1..]); }
  }

  /** Only lowercase ASCII letters. */
  predicate Letters(s: string) {
    forall i :: 0 <= i < |s| ==> 'a' <= s[i] <= 'z'
  }

  /** Lowercase ASCII letters are already folded, and contain no whitespace. */
  lemma {:induction false} FoldedLetters(s: string)
    requires Letters(s)
    ensures Folded(s) == s && NoSpaces(s)
    decreases |s|
  {
    if s != [] { FoldedLetters(s[1..]); }
  }

  /** Appending a space and a word of lowercase letters to a non-empty well-spaced text
      keeps it well spaced. */
  lemma AppendWordWellSpaced(a: string, b: string)
    requires WellSpaced(a) && a != [] && Letters(b) && b != []
    ensures WellSpaced(a + " " + b)
  {
    var s := a + " " + b;
    assert forall i :: |a| < i < |s| ==> s[i] == b[i - |a| - 1];
    assert forall i :: 0 <= i < |a| ==> s[i] == a[i];
    assert s[|a|] == ' ';
  }

  /** A single word of lowercase letters is well spaced. */
  lemma OneWord(a: string)
    requires Letters(a) && a != []
    ensures WellSpaced(a)
  {
    FoldedLetters(a);
  }

  /** A text each of whose characters folds to the matching character of `t` folds to `t`. */
  lemma {:induction false} FoldedTo(a: string, t: string)
    requires |a| == |t|
    requires forall i :: 0 <= i < |a| ==> FoldChar(a[i]) == [t[i]]
    ensures Folded(a) == t
    decreases |a|
  {
    if a != [] {
      FoldedTo(a[1..], t[1..]);
      assert t == [t[0]] + t[1..];
    }
  }

  /** Two names whose characters fold alike (they differ only in case, or in the accent
      on the same base letter) have the same folded form, hence the same canonical forms. */
  lemma {:induction false} FoldAlike(a: string, b: string)
    requires |a| == |b|
    requires forall i :: 0 <= i < |a| ==> FoldChar(a[i]) == FoldChar(b[i])
    ensures Folded(a) == Folded(b)
    ensures RoleCanonical(a) == RoleCanonical(b)
    ensures ProfileCanonical(a) == ProfileCanonical(b)
    decreases |a|
  {
    if a != [] { FoldAlike(a[1..], b[1..]); }
  }

  /** The roles screen's canonical form: accents stripped, lowercased, all whitespace
      removed (the final trim then has nothing to do). */
  function RoleCanonical(s: string): (r: string)
    ensures NoSpaces(r)
  {
    var t := RemoveSpaces(Folded(s));
    TrimOfNoSpaces(t);
    Trim(t)
  }

  lemma TrimOfNoSpaces(s: string)
    requires NoSpaces(s)
    ensures Trim(s) == s
  {
    TrimEndFacts(s);
    TrimStartFacts(TrimEnd(s));
  }

  /** `isProtected` on a role: its canonical name is 'administrador'. */
  predicate IsProtectedRole(nombre: string) {
    RoleCanonical(nombre) == "administrador"
  }

  /** Inserting whitespace anywhere in a role name does not change its canonical form, so
      it cannot take a name in or out of protection. */
  lemma RoleCanonicalIgnoresSpaces(a: string, w: string, b: string)
    requires forall i :: 0 <= i < |w| ==> IsSpace(w[i])
    ensures RoleCanonical(a + w + b) == RoleCanonical(a + b)
    ensures IsProtectedRole(a + w + b) <==> IsProtectedRole(a + b)
  {
    FoldedThree(a, w, b);
    FoldedConcat(a, b);
    FoldedSpaces(w);
    RemoveSpacesDropsSpaces(Folded(a), w, Folded(b));
  }

  lemma FoldedThree(a: string, w: string, b: string)
    ensures Folded(a + w + b) == Folded(a) + Folded(w) + Folded(b)
  {
    FoldedConcat(a + w, b);
    FoldedConcat(a, w);
  }

  lemma RemoveSpacesDropsSpaces(x: string, w: string, y: string)
    requires forall i :: 0 <= i < |w| ==> IsSpace(w[i])
    ensures RemoveSpaces(x + w + y) == RemoveSpaces(x + y)
  {
    RemoveSpacesAllSpace(w);
    RemoveSpacesConcat(x, w);
    assert RemoveSpaces(x + w) == RemoveSpaces(x);
    RemoveSpacesConcat(x + w, y);
    RemoveSpacesConcat(x, y);
  }

  /** The profiles screen's canonical form: accents stripped, lowercased, whitespace runs
      collapsed to one space, trimmed. */
  function ProfileCanonical(s: string): string {
    Trim(CollapseSpaces(Folded(s)))
  }

  /** `isProtected` on a profile: its canonical name is 'administrador supremo'. */
  predicate IsProtectedProfile(nombre: string) {
    ProfileCanonical(nombre) == "administrador supremo"
  }

  /** A profile name whose folded form is already well spaced is its own canonical form. */
  lemma ProfileCanonicalOfWellSpaced(s: string)
    requires WellSpaced(Folded(s))
    ensures ProfileCanonical(s) == Folded(s)
  {
    var f := Folded(s);
    CollapseSingleSpaced(f);
    TrimEndFacts(f);
    TrimStartFacts(TrimEnd(f));
  }

  /** A role name that folds, character by character, to a word of lowercase letters has
      that word as its canonical form; so it is protected exactly when that word is
      'administrador', whatever the capitalisation or accents of the name. */
  lemma RoleCanonicalOfWord(role: string, t: string)
    requires Letters(t) && |role| == |t|
    requires forall i :: 0 <= i < |role| ==> FoldChar(role[i]) == [t[i]]
    ensures RoleCanonical(role) == t
    ensures IsProtectedRole(role) <==> t == "administrador"
  {
    FoldedTo(role, t);
    FoldedLetters(t);
    RemoveSpacesNoSpaces(t);
    TrimOfNoSpaces(t);
  }

  /** A profile name that folds to two such words with one space between them has that as
      its canonical form; so it is protected exactly when the two words are 'administrador'
      and 'supremo'. */
  lemma ProfileCanonicalOfTwoWords(p: string, a: string, b: string)
    requires Letters(a) && Letters(b) && a != [] && b != []
    requires |p| == |a| + 1 + |b|
    requires forall i :: 0 <= i < |p| ==> FoldChar(p[i]) == [(a + " " + b)[i]]
    ensures ProfileCanonical(p) == a + " " + b
    ensures IsProtectedProfile(p) <==> a + " " + b == "administrador supremo"
  {
    OneWord(a);
    AppendWordWellSpaced(a, b);
    FoldedTo(p, a + " " + b);
    ProfileCanonicalOfWellSpaced(p);
  }
}
