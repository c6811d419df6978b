/** What an envelope says of its source (`envelope/src/name.rs`): the stored file
    name and media type are fixed points of the rules that made them. */
module EnvelopeName {

  import opened Wrappers

  const MAX_NAME_UNITS: nat := 180
  const MAX_MEDIA_TYPE_UNITS: nat := 255
  const FALLBACK_NAME: string := "blob.bin"
  const FALLBACK_MEDIA_TYPE: string := "application/octet-stream"

  /** The two Unicode algorithms the rules call. */
  datatype Unicode = Unicode(nfc: string -> string, lower: string -> string) {

    /** What normalisation form C promises (Unicode Standard Annex #15). */
    ghost predicate NfcLaws() {
      && (forall s :: nfc(nfc(s)) == nfc(s))
      && (forall s, i, j | 0 <= i <= j <= |s| && nfc(s) == s :: nfc(s[i..j]) == s[i..j])
      && (forall s | nfc(s) == s :: nfc(Underscored(s)) == Underscored(s))
      && (forall s, c | c in nfc(s) && (IsSeparator(c) || IsControl(c)) :: c in s)
      && nfc(FALLBACK_NAME) == FALLBACK_NAME
    }

    /** What lower-casing promises. */
    ghost predicate LowerLaws() {
      && (forall s :: lower(lower(s)) == lower(s))
      && (forall s | s != "" :: lower(s) != "")
      && lower(FALLBACK_MEDIA_TYPE) == FALLBACK_MEDIA_TYPE
    }
  }

  // ---------- characters ----------

  predicate IsSeparator(c: char) {
    c == '/' || c == '\\'
  }

  predicate IsControl(c: char) {
    c as int <= 0x1f || c as int == 0x7f
  }

  /** ECMAScript white space and line terminators. */
  predicate IsSpace(c: char) {
    var n := c as int;
    || 0x9 <= n <= 0xd || n == 0x20 || n == 0xa0 || n == 0x1680 || 0x2000 <= n <= 0x200a
    || n == 0x2028 || n == 0x2029 || n == 0x202f || n == 0x205f || n == 0x3000 || n == 0xfeff
  }

  predicate IsReserved(c: char) {
    c == '<' || c == '>' || c == ':' || c == '"' || c == '|' || c == '?' || c == '*'
  }

  predicate IsLeading(c: char) {
    c == '.' || IsSpace(c)
  }

  /** UTF-16 code units of one character. */
  function Width(c: char): nat {
    if c as int >= 0x10000 then 2 else 1
  }

  // ---------- the steps of `sanitise_name` ----------

  function Units(s: string): (n: nat)
    ensures |s| <= n
  {
    if s == "" then 0 else Units(s[..|s| - 1]) + Width(s[|s| - 1])
  }

  /** The part after the last separator. */
  function Leaf(s: string): string {
    if s == "" || IsSeparator(s[|s| - 1]) then "" else Leaf(s[..|s| - 1]) + [s[|s| - 1]]
  }

  function WithoutControls(s: string): string {
    if s == "" then ""
    else WithoutControls(s[..|s| - 1]) + if IsControl(s[|s| - 1]) then "" else [s[|s| - 1]]
  }

  function Underscored(s: string): string {
    seq(|s|, i requires 0 <= i < |s| => if IsReserved(s[i]) then '_' else s[i])
  }

  function TrimStart(s: string): string {
    if s != "" && IsLeading(s[0]) then TrimStart(s[1..]) else s
  }

  function TrimEnd(s: string): string {
    if s != "" && IsSpace(s[|s| - 1]) then TrimEnd(s[..|s| - 1]) else s
  }

  /** The longest prefix of at most `limit` UTF-16 units. */
  function Longest(s: string, limit: nat): string {
    if Units(s) <= limit then s else Longest(s[..|s| - 1], limit)
  }

  function Named(u: Unicode, value: string): string {
    TrimEnd(TrimStart(Underscored(u.nfc(WithoutControls(Leaf(value))))))
  }

  function SanitiseName(u: Unicode, value: string): string {
    var trimmed := Named(u, value);
    var name := if trimmed == "" then FALLBACK_NAME else trimmed;
    if Units(name) <= MAX_NAME_UNITS then name else TrimEnd(Longest(name, MAX_NAME_UNITS))
  }

  // ---------- what each step leaves ----------

  ghost predicate Free(s: string, bad: char -> bool) {
    forall i | 0 <= i < |s| :: !bad(s[i])
  }

  lemma {:induction false} LeafIsFree(s: string)
    ensures Free(Leaf(s), IsSeparator)
    ensures Free(s, IsSeparator) ==> Leaf(s) == s
  {
    hide IsSeparator;
    if s != "" && !IsSeparator(s[|s| - 1]) {
      LeafIsFree(s[..|s| - 1]);
    }
  }

  lemma {:induction false} ControlsGo(s: string)
    ensures Free(WithoutControls(s), IsControl)
    ensures Free(s, IsSeparator) ==> Free(WithoutControls(s), IsSeparator)
  {
    hide IsControl, IsSeparator;
    if s != "" {
      ControlsGo(s[..|s| - 1]);
    }
  }

  lemma {:induction false} ControlFreeStays(s: string)
    requires Free(s, IsControl)
    ensures WithoutControls(s) == s
  {
    hide IsControl;
    if s != "" {
      ControlFreeStays(s[..|s| - 1]);
    }
  }

  lemma {:induction false} TrimStartKeeps(s: string) returns (from: nat)
    ensures from <= |s| && TrimStart(s) == s[from..]
    ensures TrimStart(s) != "" ==> !IsLeading(TrimStart(s)[0])
  {
    hide IsLeading;
    from := 0;
    if s != "" && IsLeading(s[0]) {
      var rest := TrimStartKeeps(s[1..]);
      from := rest + 1;
      assert s[1..][rest..] == s[from..];
    }
  }

  lemma {:induction false} TrimEndKeeps(s: string)
    ensures TrimEnd(s) <= s
    ensures TrimEnd(s) != "" ==> !IsSpace(TrimEnd(s)[|TrimEnd(s)| - 1])
    ensures s != "" && !IsSpace(s[0]) ==> TrimEnd(s) != ""
  {
    hide IsSpace;
    if s != "" && IsSpace(s[|s| - 1]) {
      TrimEndKeeps(s[..|s| - 1]);
    }
  }

  lemma {:induction false} UnitsGrow(s: string, n: nat)
    requires n <= |s|
    ensures Units(s[..n]) <= Units(s)
    decreases |s|
  {
    if n < |s| {
      UnitsGrow(s[..|s| - 1], n);
      assert s[..|s| - 1][..n] == s[..n];
    } else {
      assert s[..n] == s;
    }
  }

  lemma {:induction false} LongestFits(s: string, limit: nat)
    ensures Longest(s, limit) <= s && Units(Longest(s, limit)) <= limit
    ensures forall n | |Longest(s, limit)| < n <= |s| :: Units(s[..n]) > limit
    ensures s != "" && limit >= 2 ==> Longest(s, limit) != ""
  {
    if Units(s) > limit {
      var init := s[..|s| - 1];
      LongestFits(init, limit);
      forall n | |Longest(init, limit)| < n <= |s| ensures Units(s[..n]) > limit {
        assert n < |s| ==> s[..n] == init[..n];
        assert s[..|s|] == s;
      }
      if |s| == 1 {
        assert init == "" && Units(s) == Width(s[0]);
      }
    } else {
      assert s[..|s|] == s;
    }
  }

  lemma {:induction false} LongestIs(s: string, limit: nat, i: nat)
    requires i < |s| && Units(s[..i]) <= limit < Units(s[..i + 1])
    ensures Longest(s, limit) == s[..i]
  {
    var longest := Longest(s, limit);
    LongestFits(s, limit);
    if |longest| > i {
      assert longest[..i + 1] == s[..i + 1];
      UnitsGrow(longest, i + 1);
    }
  }

  /** The source's own loop: push characters while the units fit. */
  method Truncate(s: string) returns (out: string)
    requires Units(s) > MAX_NAME_UNITS
    ensures out == Longest(s, MAX_NAME_UNITS)
    ensures out < s && Units(out) <= MAX_NAME_UNITS < Units(s[..|out| + 1])
  {
    out := "";
    var units, i := 0, 0;
    while i < |s| && units + Width(s[i]) <= MAX_NAME_UNITS
      invariant 0 <= i <= |s| && out == s[..i] && units == Units(out) <= MAX_NAME_UNITS
    {
      units := units + Width(s[i]);
      assert s[..i + 1][..i] == out && s[..i + 1][i] == s[i];
      out := out + [s[i]];
      i := i + 1;
    }
    assert s[..|s|] == s;
    assert s[..i + 1][..i] == out && s[..i + 1][i] == s[i];
    LongestIs(s, MAX_NAME_UNITS, i);
  }

  // ---------- the canonical names ----------

  /** What a stored name looks like, said without the rules that make it. */
  ghost predicate Canonical(u: Unicode, name: string) {
    && Clean(u, name)
    && name != "" && !IsLeading(name[0]) && !IsSpace(name[|name| - 1])
    && Units(name) <= MAX_NAME_UNITS
  }

  ghost predicate Clean(u: Unicode, s: string) {
    && Free(s, IsSeparator) && Free(s, IsControl) && Free(s, IsReserved)
    && u.nfc(s) == s
  }

  lemma {:induction false} Cleaned(u: Unicode, value: string)
    requires u.NfcLaws()
    ensures Clean(u, Underscored(u.nfc(WithoutControls(Leaf(value)))))
  {
    hide IsControl, IsSeparator, Leaf, WithoutControls;
    LeafIsFree(value);
    ControlsGo(Leaf(value));
    var bare := WithoutControls(Leaf(value));
    var composed := u.nfc(bare);
    forall i | 0 <= i < |composed| ensures !IsSeparator(composed[i]) && !IsControl(composed[i]) {
      assert composed[i] in composed;
      assert composed[i] in bare <==> exists j | 0 <= j < |bare| :: bare[j] == composed[i];
    }
    UnderscoresAreFree(composed);
  }

  lemma {:induction false} UnderscoresAreFree(s: string)
    requires Free(s, IsSeparator) && Free(s, IsControl)
    ensures var t := Underscored(s); Free(t, IsSeparator) && Free(t, IsControl) && Free(t, IsReserved)
  {
    forall i | 0 <= i < |s| ensures var c := Underscored(s)[i]; !IsSeparator(c) && !IsControl(c) && !IsReserved(c) {
      assert Underscored(s)[i] == '_' || Underscored(s)[i] == s[i];
    }
  }

  lemma {:induction false} PartIsClean(u: Unicode, s: string, i: nat, j: nat)
    requires u.NfcLaws() && Clean(u, s) && i <= j <= |s|
    ensures Clean(u, s[i..j])
  {
  }

  lemma {:induction false} TrimmedIsClean(u: Unicode, all: string)
    requires u.NfcLaws() && Clean(u, all)
    ensures var t := TrimEnd(TrimStart(all));
      Clean(u, t) && (t != "" ==> !IsLeading(t[0]) && !IsSpace(t[|t| - 1]))
  {
    hide Clean, Unicode.NfcLaws, IsSpace, IsLeading, TrimStart, TrimEnd;
    var late := TrimStart(all);
    var i := TrimStartKeeps(all);
    assert late == all[i..|all|];
    PartIsClean(u, all, i, |all|);
    TrimEndKeeps(late);
    assert TrimEnd(late) == late[0..|TrimEnd(late)|];
    PartIsClean(u, late, 0, |TrimEnd(late)|);
  }

  lemma {:induction false} PrefixIsCanonical(u: Unicode, name: string)
    requires u.NfcLaws() && Clean(u, name) && name != "" && !IsLeading(name[0])
    ensures Canonical(u, TrimEnd(Longest(name, MAX_NAME_UNITS)))
  {
    var cut := Longest(name, MAX_NAME_UNITS);
    LongestFits(name, MAX_NAME_UNITS);
    TrimEndKeeps(cut);
    var out := TrimEnd(cut);
    UnitsGrow(cut, |out|);
    PartIsClean(u, name, 0, |out|);
    assert out == name[0..|out|] == cut[..|out|];
  }

  /** Every name `sanitise_name` returns is canonical. */
  lemma {:induction false} SanitisedIsCanonical(u: Unicode, value: string)
    requires u.NfcLaws()
    ensures Canonical(u, SanitiseName(u, value))
  {
    hide Clean, Unicode.NfcLaws, Underscored, Leaf, WithoutControls, TrimStart, TrimEnd, Longest, Units;
    Cleaned(u, value);
    TrimmedIsClean(u, Underscored(u.nfc(WithoutControls(Leaf(value)))));
    var trimmed := Named(u, value);
    FallbackIsCanonical(u);
    var name := if trimmed == "" then FALLBACK_NAME else trimmed;
    PrefixIsCanonical(u, name);
  }

  lemma {:induction false} FallbackIsCanonical(u: Unicode)
    requires u.NfcLaws()
    ensures Canonical(u, FALLBACK_NAME)
  {
    assert FALLBACK_NAME == "blob.bin" && |FALLBACK_NAME| == 8;
    assert Units("blob.bin") == 8 by {
      UnitsOfNarrow(FALLBACK_NAME);
    }
  }

  lemma {:induction false} UnitsOfNarrow(s: string)
    requires forall i | 0 <= i < |s| :: Width(s[i]) == 1
    ensures Units(s) == |s|
  {
    if s != "" {
      UnitsOfNarrow(s[..|s| - 1]);
    }
  }

  /** The canonical names are exactly the fixed points of `sanitise_name`. */
  lemma {:induction false} FixedPoints(u: Unicode, name: string)
    requires u.NfcLaws()
    ensures SanitiseName(u, name) == name <==> Canonical(u, name)
  {
    SanitisedIsCanonical(u, name);
    if Canonical(u, name) {
      LeafIsFree(name);
      ControlFreeStays(name);
      assert Underscored(name) == name;
      assert TrimEnd(TrimStart(name)) == name;
    }
  }

  lemma {:induction false} SanitiseIdempotent(u: Unicode, value: string)
    requires u.NfcLaws()
    ensures SanitiseName(u, SanitiseName(u, value)) == SanitiseName(u, value)
  {
    SanitisedIsCanonical(u, value);
    FixedPoints(u, SanitiseName(u, value));
  }

  // ---------- media types ----------

  predicate HasControl(s: string) {
    exists i | 0 <= i < |s| :: IsControl(s[i])
  }

  function NormaliseMediaType(u: Unicode, value: string): Option<string> {
    var lowered := if value == "" then FALLBACK_MEDIA_TYPE else u.lower(value);
    if Units(lowered) > MAX_MEDIA_TYPE_UNITS || HasControl(lowered) then None
    else Some(lowered)
  }

  /** A media type is accepted as it is or refused: never repaired twice. */
  lemma {:induction false} MediaTypeIdempotent(u: Unicode, value: string)
    requires u.LowerLaws()
    ensures var r := NormaliseMediaType(u, value);
      r.Some? ==> r.value != "" && NormaliseMediaType(u, r.value) == r
  {
    hide Units, HasControl;
    assert FALLBACK_MEDIA_TYPE != "" && u.lower(FALLBACK_MEDIA_TYPE) == FALLBACK_MEDIA_TYPE;
    assert u.lower(u.lower(value)) == u.lower(value);
  }
}
