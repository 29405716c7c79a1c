/**
 * The JavaScript operators the driver applies to the string fields of a
 * configuration or of a JSON payload: `a || b`, `a ?? b`, a template
 * literal `${a}` and `String.prototype.trim`. A field is `None` when it is
 * absent (`undefined`) and `Some(s)` when it holds the string `s`.
 */
module JsValues {
  import opened Wrappers

  /** JavaScript truthiness of a string-or-undefined: absent and "" are both falsy. */
  predicate Truthy(v: Option<string>) {
    v.Some? && v.value != ""
  }

  /** `v || fallback`: a one-candidate fallback chain. */
  function Or(v: Option<string>, fallback: string): (r: string)
    ensures r == FirstNonEmpty([v], fallback)
    ensures fallback != "" ==> r != ""
  {
    if Truthy(v) then v.value else fallback
  }

  /**
   * `v ?? fallback`: agrees with `||` on a non-empty string, but keeps ""
   * where `||` would take the fallback.
   */
  function Nullish(v: Option<string>, fallback: string): (r: string)
    ensures Truthy(v) ==> r == Or(v, fallback)
    ensures v == Some("") ==> r == ""
    ensures v.None? ==> r == fallback
  {
    if v.Some? then v.value else fallback
  }

  /** `${v}` in a template literal: a string renders as itself, an absent value as "undefined". */
  function Template(v: Option<string>): (r: string)
    ensures v.Some? ==> r == v.value
    ensures r == "" <==> v == Some("")
  {
    if v.Some? then v.value else "undefined"
  }

  // ---------------------------------------------------------------------
  // First-non-empty fallback chains

  /** Index of the first truthy candidate, or |cands| when there is none. */
  function FirstTruthy(cands: seq<Option<string>>): (k: nat)
    ensures k <= |cands|
    ensures forall j :: 0 <= j < k ==> !Truthy(cands[j])
    ensures k < |cands| ==> Truthy(cands[k])
  {
    if cands == [] then 0
    else if Truthy(cands[0]) then 0
    else 1 + FirstTruthy(cands[1..])
  }

  /** The first non-empty candidate, else the default: the reference meaning of a `||` chain. */
  function FirstNonEmpty(cands: seq<Option<string>>, default: string): string {
    var k := FirstTruthy(cands);
    if k < |cands| then cands[k].value else default
  }

  /** A chain that ends in a non-empty default never yields "". */
  lemma FirstNonEmptyNotEmpty(cands: seq<Option<string>>, default: string)
    requires default != ""
    ensures FirstNonEmpty(cands, default) != ""
  {
  }

  /** The result is one of the candidates, or the default when every candidate is absent or "". */
  lemma FirstNonEmptyOrigin(cands: seq<Option<string>>, default: string)
    ensures (exists j :: 0 <= j < |cands| && Truthy(cands[j])) ==>
              exists j :: 0 <= j < |cands| && Truthy(cands[j]) && cands[j].value == FirstNonEmpty(cands, default)
    ensures (forall j :: 0 <= j < |cands| ==> !Truthy(cands[j])) ==> FirstNonEmpty(cands, default) == default
  {
  }

  /** `a || b || default` is the first non-empty of [a, b], else the default. */
  lemma {:induction false} OrChain2(a: Option<string>, b: Option<string>, default: string)
    ensures Or(a, Or(b, default)) == FirstNonEmpty([a, b], default)
  {
    var c := [a, b];
    if Truthy(a) {
      assert FirstTruthy(c) == 0;
    } else if Truthy(b) {
      assert FirstTruthy(c[1..]) == 0;
    } else {
      assert FirstTruthy(c[1..][1..]) == 0;
    }
  }

  /** `o || (o || d)` is `o || d`: re-applying an override to its own resolution changes nothing. */
  lemma OrAbsorbs(o: Option<string>, d: string)
    ensures Or(o, Or(o, d)) == Or(o, d)
  {
  }

  // ---------------------------------------------------------------------
  // String.prototype.trim

  /**
   * The characters `trim` removes: ECMAScript WhiteSpace (tab, vertical tab,
   * form feed, space, no-break space, byte order mark and the Unicode
   * space separators) and LineTerminator (LF, CR, U+2028, U+2029).
   */
  function IsWhitespace(c: char): (ws: bool)
    ensures c == ' ' || c == '\t' || c == '\n' || c == '\r' ==> ws
    ensures ('a' <= c <= 'z') || ('A' <= c <= 'Z') || ('0' <= c <= '9') || c == '@' || c == '.' ==> !ws
  {
    c == '\t' || c == '\U{000B}' || c == '\U{000C}' || c == ' ' || c == '\U{00A0}' || c == '\U{FEFF}'
    || c == '\U{1680}' || ('\U{2000}' <= c <= '\U{200A}') || c == '\U{202F}' || c == '\U{205F}' || c == '\U{3000}'
    || c == '\n' || c == '\r' || c == '\U{2028}' || c == '\U{2029}'
  }

  /** Every character of s is whitespace. */
  predicate AllWhitespace(s: string) {
    forall i :: 0 <= i < |s| ==> IsWhitespace(s[i])
  }

  /** The first n characters of s are whitespace. */
  predicate WhitespaceBefore(s: string, n: nat) {
    forall i :: 0 <= i < n && i < |s| ==> IsWhitespace(s[i])
  }

  /** Every character of s from position n on is whitespace. */
  predicate WhitespaceFrom(s: string, n: nat) {
    forall i :: n <= i < |s| ==> IsWhitespace(s[i])
  }

  /** s[a..b] is what remains once every leading and trailing whitespace character of s is removed. */
  predicate TrimmedAt(s: string, a: nat, b: nat) {
    a <= b <= |s| && WhitespaceBefore(s, a) && WhitespaceFrom(s, b)
    && (a < b ==> !IsWhitespace(s[a]) && !IsWhitespace(s[b - 1]))
  }

  /** r is the trim of s. */
  ghost predicate IsTrimOf(s: string, r: string) {
    exists a: nat, b: nat :: TrimmedAt(s, a, b) && r == s[a..b]
  }

  /** Number of leading whitespace characters. */
  function LeadingWhitespace(s: string): (k: nat)
    ensures k <= |s| && WhitespaceBefore(s, k)
    ensures k < |s| ==> !IsWhitespace(s[k])
  {
    if s == [] then 0
    else if IsWhitespace(s[0]) then 1 + LeadingWhitespace(s[1..])
    else 0
  }

  /** Number of trailing whitespace characters. */
  function TrailingWhitespace(s: string): (k: nat)
    ensures k <= |s| && WhitespaceFrom(s, |s| - k)
    ensures k < |s| ==> !IsWhitespace(s[|s| - 1 - k])
  {
    if s == [] then 0
    else if IsWhitespace(s[|s| - 1]) then 1 + TrailingWhitespace(s[..|s| - 1])
    else 0
  }

  /** `s.trim()` */
  function Trim(s: string): (r: string)
    ensures IsTrimOf(s, r)
    ensures |r| <= |s|
    ensures r == [] || (!IsWhitespace(r[0]) && !IsWhitespace(r[|r| - 1]))
  {
    var a := LeadingWhitespace(s);
    var b := if a == |s| then a else |s| - TrailingWhitespace(s);
    assert TrimmedAt(s, a, b);
    s[a..b]
  }

  /** The trim of a string is unique: any two readings of "strip the whitespace edges" agree. */
  lemma TrimmedAtUnique(s: string, a: nat, b: nat, a': nat, b': nat)
    requires TrimmedAt(s, a, b) && TrimmedAt(s, a', b')
    ensures s[a..b] == s[a'..b']
  {
    if a < b || a' < b' {
      assert a == a' && b == b';
    }
  }

  /** Whenever s[a..b] is a trimmed reading of s, `trim` returns exactly it. */
  lemma TrimIs(s: string, a: nat, b: nat)
    requires TrimmedAt(s, a, b)
    ensures Trim(s) == s[a..b]
  {
    var a': nat, b': nat :| TrimmedAt(s, a', b') && Trim(s) == s[a'..b'];
    TrimmedAtUnique(s, a, b, a', b');
  }

  /** A string without whitespace at either end is its own trim. */
  lemma TrimClean(s: string)
    requires s == [] || (!IsWhitespace(s[0]) && !IsWhitespace(s[|s| - 1]))
    ensures Trim(s) == s
  {
    TrimIs(s, 0, |s|);
  }

  /** A string made only of whitespace trims to "". */
  lemma TrimBlank(s: string)
    requires AllWhitespace(s)
    ensures Trim(s) == ""
  {
    TrimIs(s, 0, 0);
  }

  /** Appending a space does not change the trim. */
  lemma TrimPadRight(s: string)
    ensures Trim(s + " ") == Trim(s)
  {
    var t := s + " ";
    assert IsTrimOf(s, Trim(s));
    var a: nat, b: nat :| TrimmedAt(s, a, b) && Trim(s) == s[a..b];
    assert t[a..b] == s[a..b];
    TrimIs(t, a, b);
  }

  /** Shifting a string right by one whitespace character shifts its trimmed reading by one. */
  lemma TrimmedAtShift(s: string, t: string, a: nat, b: nat)
    requires |t| == |s| + 1 && IsWhitespace(t[0])
    requires forall i :: 0 <= i < |s| ==> t[i + 1] == s[i]
    requires TrimmedAt(s, a, b)
    ensures TrimmedAt(t, a + 1, b + 1) && t[a + 1..b + 1] == s[a..b]
  {
    forall i | 0 < i < a + 1 ensures IsWhitespace(t[i]) {
      assert t[(i - 1) + 1] == s[i - 1];
    }
    forall i | b + 1 <= i < |t| ensures IsWhitespace(t[i]) {
      assert t[(i - 1) + 1] == s[i - 1];
    }
    if a < b {
      assert t[a + 1] == s[a] && t[(b - 1) + 1] == s[b - 1];
    }
  }

  /** A whitespace character in front of a string does not change its trim. */
  lemma TrimShift(s: string, t: string)
    requires |t| == |s| + 1 && IsWhitespace(t[0])
    requires forall i :: 0 <= i < |s| ==> t[i + 1] == s[i]
    ensures Trim(t) == Trim(s)
  {
    assert IsTrimOf(s, Trim(s));
    var a: nat, b: nat :| TrimmedAt(s, a, b) && Trim(s) == s[a..b];
    TrimmedAtShift(s, t, a, b);
    TrimIs(t, a + 1, b + 1);
  }

  /** Prepending a space does not change the trim. */
  lemma TrimPadLeft(s: string)
    ensures Trim(" " + s) == Trim(s)
  {
    TrimShift(s, " " + s);
  }
}
