/**
 * The digit mask of the numeric inputs (sale quantities, product prices and stocks,
 * purchase quantities and costs): raw text becomes a length-capped digit string,
 * displayed with '.' between groups of three digits counted from the right, and a
 * guard that refuses an insertion which would take the field over its digit budget.
 * The same helpers appear verbatim in the sales, products and purchases screens.
 */
module DigitMask {
  import opened Wrappers
  import opened Text

  /** `(s || '').replace(/\D/g, '')`: the decimal digits of `s`, in order. */
  function OnlyDigits(s: string): (r: string)
    ensures AllDigits(r) && |r| <= |s|
  {
    if s == [] then [] else (if IsDigit(s[0]) then [s[0]] else []) + OnlyDigits(s[1..])
  }

  /** Digit extraction works piecewise: it distributes over concatenation. */
  lemma {:induction false} OnlyDigitsConcat(a: string, b: string)
    ensures OnlyDigits(a + b) == OnlyDigits(a) + OnlyDigits(b)
    decreases |a|
  {
    if a == [] {
      assert a + b == b;
    } else {
      var h := if IsDigit(a[0]) then [a[0]] else [];
      OnlyDigitsConcat(a[1..], b);
      calc {
        OnlyDigits(a + b);
        { assert (a + b)[0] == a[0] && (a + b)[1..] == a[1..] + b; }
        h + OnlyDigits(a[1..] + b);
        h + (OnlyDigits(a[1..]) + OnlyDigits(b));
        (h + OnlyDigits(a[1..])) + OnlyDigits(b);
      }
    }
  }

  /** A digit string is its own digit extraction. */
  lemma {:induction false} OnlyDigitsOfDigits(d: string)
    requires AllDigits(d)
    ensures OnlyDigits(d) == d
    decreases |d|
  {
    if d != [] { OnlyDigitsOfDigits(d[1..]); }
  }

  /** `onlyDigits(s).slice(0, maxLen)`: the first `maxLen` digits of `s` (or all of them). */
  function ClampDigits(s: string, maxLen: nat): (r: string)
    ensures AllDigits(r)
    ensures |r| == if maxLen < |OnlyDigits(s)| then maxLen else |OnlyDigits(s)|
    ensures r == OnlyDigits(s)[..|r|]
  {
    Take(OnlyDigits(s), maxLen)
  }

  /** Clamping a clamped string changes nothing. */
  lemma ClampDigitsIdempotent(s: string, maxLen: nat)
    ensures ClampDigits(ClampDigits(s, maxLen), maxLen) == ClampDigits(s, maxLen)
  {
    OnlyDigitsOfDigits(ClampDigits(s, maxLen));
  }

  // ------------------------------------------------------------------ thousands grouping

  /** Where the grouping regex inserts: before position `i` of an `n`-digit string when `i` is
      interior (`\B`) and a positive multiple of three digits follows (`(?=(\d{3})+(?!\d))`). */
  predicate DotBefore(n: nat, i: nat) {
    0 < i < n && (n - i) % 3 == 0
  }

  function GroupFrom(d: string, i: nat): string
    requires i <= |d|
    decreases |d| - i
  {
    if i == |d| then []
    else (if DotBefore(|d|, i) then "." else "") + [d[i]] + GroupFrom(d, i + 1)
  }

  /** `digits.replace(/\B(?=(\d{3})+(?!\d))/g, '.')` on a string of digits: scanned left to
      right, a '.' goes before every digit that `DotBefore` selects. */
  function WithThousands(d: string): string
    requires AllDigits(d)
  {
    GroupFrom(d, 0)
  }

  /** Independent reference: peel groups of three digits off the right end. */
  function GroupsFromRight(d: string): string
    decreases |d|
  {
    if |d| <= 3 then d else GroupsFromRight(d[..|d| - 3]) + "." + d[|d| - 3..]
  }

  lemma {:induction false} GroupFromNoDots(d: string, i: nat)
    requires i <= |d|
    requires forall j :: i <= j < |d| ==> !DotBefore(|d|, j)
    ensures GroupFrom(d, i) == d[i..]
    decreases |d| - i
  {
    if i < |d| { GroupFromNoDots(d, i + 1); }
  }

  lemma {:induction false} GroupFromSplit(d: string, i: nat)
    requires |d| > 3 && i <= |d| - 3
    ensures GroupFrom(d, i) == GroupFrom(d[..|d| - 3], i) + "." + d[|d| - 3..]
    decreases |d| - 3 - i
  {
    var m := |d| - 3;
    if i == m {
      GroupFromNoDots(d, m + 1);
      assert d[m..] == [d[m]] + d[m + 1..];
    } else {
      GroupFromSplit(d, i + 1);
      assert DotBefore(|d|, i) == DotBefore(m, i);
      assert d[..m][i] == d[i];
    }
  }

  /** The regex's grouping equals grouping by threes from the right. */
  lemma {:induction false} WithThousandsByGroups(d: string)
    requires AllDigits(d)
    ensures WithThousands(d) == GroupsFromRight(d)
    decreases |d|
  {
    if |d| <= 3 {
      GroupFromNoDots(d, 0);
    } else {
      GroupFromSplit(d, 0);
      WithThousandsByGroups(d[..|d| - 3]);
    }
  }

  lemma OnlyDigitsAroundDot(a: string, b: string)
    ensures OnlyDigits(a + "." + b) == OnlyDigits(a) + OnlyDigits(b)
  {
    OnlyDigitsConcat(a + ".", b);
    OnlyDigitsConcat(a, ".");
    assert OnlyDigits(".") == [];
  }

  lemma DigitHalves(d: string, k: nat)
    requires AllDigits(d) && k <= |d|
    ensures AllDigits(d[..k]) && AllDigits(d[k..])
  {
    assert forall i :: 0 <= i < k ==> d[..k][i] == d[i];
    assert forall i :: 0 <= i < |d| - k ==> d[k..][i] == d[k + i];
  }

  lemma {:induction false} GroupsFromRightDigits(d: string)
    requires AllDigits(d)
    ensures OnlyDigits(GroupsFromRight(d)) == d
    decreases |d|
  {
    if |d| <= 3 {
      OnlyDigitsOfDigits(d);
    } else {
      var h, t := d[..|d| - 3], d[|d| - 3..];
      DigitHalves(d, |d| - 3);
      GroupsFromRightDigits(h);
      OnlyDigitsOfDigits(t);
      OnlyDigitsAroundDot(GroupsFromRight(h), t);
      assert d == h + t;
    }
  }

  lemma {:induction false} GroupsFromRightShape(d: string)
    ensures |GroupsFromRight(d)| == if d == [] then 0 else |d| + (|d| - 1) / 3
    ensures |d| > 3 ==> GroupsFromRight(d)[0] == GroupsFromRight(d[..|d| - 3])[0]
    decreases |d|
  {
    if |d| > 3 {
      GroupsFromRightShape(d[..|d| - 3]);
    }
  }

  lemma {:induction false} GroupsFromRightEnds(d: string)
    requires AllDigits(d) && d != []
    ensures GroupsFromRight(d)[0] != '.'
    ensures GroupsFromRight(d)[|GroupsFromRight(d)| - 1] != '.'
    decreases |d|
  {
    GroupsFromRightShape(d);
    if |d| <= 3 {
      assert IsDigit(d[0]) && IsDigit(d[|d| - 1]);
    } else {
      GroupsFromRightEnds(d[..|d| - 3]);
      assert IsDigit(d[|d| - 1]);
    }
  }

  lemma {:induction false} GroupsFromRightSplit(d: string)
    requires AllDigits(d)
    ensures var g := Split(GroupsFromRight(d), '.');
      (d != [] ==> 1 <= |g[0]| <= 3) && forall i :: 1 <= i < |g| ==> |g[i]| == 3
    decreases |d|
  {
    if |d| <= 3 {
      assert '.' !in d by { assert forall i :: 0 <= i < |d| ==> IsDigit(d[i]); }
      SplitNoSep(d, '.');
    } else {
      var h, t := d[..|d| - 3], d[|d| - 3..];
      var gh := GroupsFromRight(h);
      GroupsFromRightSplit(h);
      assert '.' !in t by { assert forall i :: 0 <= i < |t| ==> IsDigit(t[i]); }
      SplitAppend(gh, '.', t);
      assert gh + "." + t == gh + ['.'] + t;
    }
  }

  /** The display of a digit string: reading its digits back gives the input, it is
      `(n - 1) / 3` characters longer, it never starts or ends with '.', strings of up to
      three digits are unchanged, and between the dots sit groups of exactly three digits
      except the leftmost one, which holds one to three. */
  lemma WithThousandsFacts(d: string)
    requires AllDigits(d)
    ensures OnlyDigits(WithThousands(d)) == d
    ensures |WithThousands(d)| == if d == [] then 0 else |d| + (|d| - 1) / 3
    ensures |d| <= 3 ==> WithThousands(d) == d
    ensures d != [] ==> WithThousands(d)[0] != '.' && WithThousands(d)[|WithThousands(d)| - 1] != '.'
    ensures var g := Split(WithThousands(d), '.');
      (d != [] ==> 1 <= |g[0]| <= 3) && forall i :: 1 <= i < |g| ==> |g[i]| == 3
  {
    WithThousandsByGroups(d);
    GroupsFromRightDigits(d);
    GroupsFromRightShape(d);
    if d != [] { GroupsFromRightEnds(d); }
    GroupsFromRightSplit(d);
  }

  // ------------------------------------------------------------------ reading a masked value

  /** `unmask(v)`: the number the digits of `v` denote, 0 when `v` has none. */
  function Unmask(v: string): nat {
    var d := OnlyDigits(v);
    if d == [] then 0 else DigitsValue(d)
  }

  /** The value of a masked field is the value of its clamped digits, below 10^maxLen. */
  lemma UnmaskMasked(s: string, maxLen: nat)
    ensures Unmask(WithThousands(ClampDigits(s, maxLen))) == DigitsValue(ClampDigits(s, maxLen))
    ensures Unmask(WithThousands(ClampDigits(s, maxLen))) < Pow10(maxLen)
  {
    var d := ClampDigits(s, maxLen);
    WithThousandsFacts(d);
    DigitsValueBound(d);
    assert Pow10(|d|) <= Pow10(maxLen) by { Pow10Monotone(|d|, maxLen); }
  }

  lemma {:induction false} Pow10Monotone(a: nat, b: nat)
    requires a <= b
    ensures Pow10(a) <= Pow10(b)
    decreases b
  {
    if a < b { Pow10Monotone(a, b - 1); }
  }

  /** Masking what is on display again changes nothing: the mask is idempotent. */
  lemma MaskIdempotent(s: string, maxLen: nat)
    ensures ClampDigits(WithThousands(ClampDigits(s, maxLen)), maxLen) == ClampDigits(s, maxLen)
  {
    var d := ClampDigits(s, maxLen);
    WithThousandsFacts(d);
    OnlyDigitsOfDigits(d);
  }

  /** What a masked input handler computes from the element's text: the display string and
      the numeric control value (`digits ? Number(digits) : null`). */
  datatype MaskedInput = MaskedInput(masked: string, control: Option<nat>)

  function MaskInput(value: string, maxLen: nat): (m: MaskedInput)
    ensures OnlyDigits(m.masked) == ClampDigits(value, maxLen)
    ensures m.control.None? <==> m.masked == []
    ensures m.control.Some? ==> m.control.value == Unmask(m.masked) && m.control.value < Pow10(maxLen)
  {
    var digits := ClampDigits(value, maxLen);
    WithThousandsFacts(digits);
    UnmaskMasked(value, maxLen);
    MaskedInput(WithThousands(digits), if digits == [] then None else Some(DigitsValue(digits)))
  }

  /** `withThousands(String(x).replace(/\D/g, ''))`: how `editar` shows a stored number. */
  function DisplayNumber(s: string): string {
    WithThousands(OnlyDigits(s))
  }

  /** How `editar` shows an optional stored number: `withThousands(String(v ?? '')
      .replace(/\D/g, ''))`. */
  function ShownNumber(v: Option<int>): string {
    match v
    case None => ""
    case Some(x) => DisplayNumber(IntToString(x))
  }

  /** A stored natural number shown for editing reads back as itself, and re-masking the
      shown text (as typing into the field does) keeps it when it fits the field. */
  lemma DisplayNatRoundTrip(n: nat)
    ensures Unmask(DisplayNumber(NatToString(n))) == n
    ensures forall maxLen: nat :: |NatToString(n)| <= maxLen ==>
      MaskInput(DisplayNumber(NatToString(n)), maxLen) == MaskedInput(DisplayNumber(NatToString(n)), Some(n))
  {
    var d := NatToString(n);
    OnlyDigitsOfDigits(d);
    WithThousandsFacts(d);
    forall maxLen: nat | |d| <= maxLen
      ensures MaskInput(DisplayNumber(d), maxLen) == MaskedInput(DisplayNumber(d), Some(n))
    {
      assert ClampDigits(DisplayNumber(d), maxLen) == d;
    }
  }

  /** A stored non-negative number shown for editing reads back as itself; a missing one
      shows as blank. */
  lemma ShownNumberRoundTrip(v: Option<int>)
    ensures v.None? ==> ShownNumber(v) == ""
    ensures v.Some? && v.value >= 0 ==> Unmask(ShownNumber(v)) == v.value
  {
    if v.Some? && v.value >= 0 {
      DisplayNatRoundTrip(v.value);
    }
  }

  // ------------------------------------------------------------------ the insertion guard

  /** `delete*`, `historyUndo` and `historyRedo` are never blocked. */
  predicate IsExemptInput(inputType: string) {
    (|inputType| >= 6 && inputType[..6] == "delete") ||
    inputType == "historyUndo" || inputType == "historyRedo"
  }

  /** `onBeforeInputDigits`: whether it calls `preventDefault` for an input event of type
      `inputType` carrying `data`, on an element holding `value` with the given selection
      (a missing selection end point reads as the end of the text). */
  function BlocksInput(value: string, selStart: Option<nat>, selEnd: Option<nat>,
                       data: Option<string>, inputType: string, maxLen: nat): bool
  {
    if IsExemptInput(inputType) then false
    else
      var start := selStart.GetOr(|value|);
      var end := selEnd.GetOr(|value|);
      var before := OnlyDigits(Take(value, start));
      var after := OnlyDigits(Drop(value, end));
      var incoming := OnlyDigits(data.GetOr(""));
      |before| + |incoming| + |after| > maxLen
  }

  /** The text the element would hold if the insertion went ahead. */
  function Spliced(value: string, start: nat, end: nat, data: string): string {
    Take(value, start) + data + Drop(value, end)
  }

  /** The guard never blocks deletion, undo or redo, and otherwise blocks exactly when the
      text after the insertion would hold more than `maxLen` digits. */
  lemma BlocksInputIffOverflow(value: string, selStart: Option<nat>, selEnd: Option<nat>,
                               data: Option<string>, inputType: string, maxLen: nat)
    ensures IsExemptInput(inputType) ==> !BlocksInput(value, selStart, selEnd, data, inputType, maxLen)
    ensures !IsExemptInput(inputType) ==>
      (BlocksInput(value, selStart, selEnd, data, inputType, maxLen) <==>
       |OnlyDigits(Spliced(value, selStart.GetOr(|value|), selEnd.GetOr(|value|), data.GetOr("")))| > maxLen)
  {
    var start, end := selStart.GetOr(|value|), selEnd.GetOr(|value|);
    OnlyDigitsConcat(Take(value, start) + data.GetOr(""), Drop(value, end));
    OnlyDigitsConcat(Take(value, start), data.GetOr(""));
  }

  /** An insertion the guard lets through is never cut short by the mask that follows it. */
  lemma AdmittedInputKeepsAllDigits(value: string, start: nat, end: nat, data: string,
                                    inputType: string, maxLen: nat)
    requires !IsExemptInput(inputType)
    requires !BlocksInput(value, Some(start), Some(end), Some(data), inputType, maxLen)
    ensures ClampDigits(Spliced(value, start, end, data), maxLen) == OnlyDigits(Spliced(value, start, end, data))
  {
    BlocksInputIffOverflow(value, Some(start), Some(end), Some(data), inputType, maxLen);
  }
}
