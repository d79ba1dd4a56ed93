/**
 * JavaScript string operations used by the document route: `trim` on
 * UTF-16 code units, and `toLowerCase` as it acts on ASCII MIME types.
 */
module JsText {

  /** One UTF-16 code unit; `.length`, `substring` and `trim` all count these. */
  type CodeUnit = u: int | 0 <= u < 0x1_0000

  /** A JavaScript string as the sequence of its code units. */
  type Text = seq<CodeUnit>

  /**
   * The code units `String.prototype.trim` strips: the ECMAScript
   * WhiteSpace set (tab, vertical tab, form feed, space, no-break space,
   * byte-order mark and the Zs space separators) and the LineTerminator set
   * (line feed, carriage return, line and paragraph separators).
   */
  const TrimmableUnits: set<CodeUnit> := {
    0x0009, 0x000A, 0x000B, 0x000C, 0x000D, 0x0020, 0x00A0, 0x1680,
    0x2000, 0x2001, 0x2002, 0x2003, 0x2004, 0x2005, 0x2006, 0x2007, 0x2008, 0x2009, 0x200A,
    0x2028, 0x2029, 0x202F, 0x205F, 0x3000, 0xFEFF }

  /** `trim` removes `u`: it is ECMAScript white space or a line terminator. */
  predicate IsTrimmable(u: CodeUnit) {
    u in TrimmableUnits
  }

  /** Every code unit of `t[lo..hi]` is stripped by `trim`. */
  predicate TrimmableBetween(t: Text, lo: int, hi: int)
    requires 0 <= lo <= hi <= |t|
  {
    forall i :: lo <= i < hi ==> IsTrimmable(t[i])
  }

  /** Every code unit of `t` is stripped by `trim`. */
  predicate AllTrimmable(t: Text) {
    TrimmableBetween(t, 0, |t|)
  }

  /**
   * `t[lo..hi]` is what trimming `t` leaves: everything outside it is
   * trimmable and, unless it is empty, it starts and ends with a code unit
   * that is not.
   */
  predicate IsTrimSlice(t: Text, lo: int, hi: int) {
    && 0 <= lo <= hi <= |t|
    && TrimmableBetween(t, 0, lo)
    && TrimmableBetween(t, hi, |t|)
    && (lo < hi ==> !IsTrimmable(t[lo]) && !IsTrimmable(t[hi - 1]))
  }

  /** Skips the trimmable code units from `i` on: the index of the first one kept, or `|t|`. */
  function FirstKept(t: Text, i: nat): (k: nat)
    requires i <= |t|
    ensures i <= k <= |t|
    ensures TrimmableBetween(t, i, k)
    ensures k < |t| ==> !IsTrimmable(t[k])
    decreases |t| - i
  {
    if i < |t| && IsTrimmable(t[i]) then FirstKept(t, i + 1) else i
  }

  /** Skips the trimmable code units backwards from `j`, not past `lo`: one past the last one kept, or `lo`. */
  function EndKept(t: Text, lo: nat, j: nat): (k: nat)
    requires lo <= j <= |t|
    ensures lo <= k <= j
    ensures TrimmableBetween(t, k, j)
    ensures k > lo ==> !IsTrimmable(t[k - 1])
    decreases j
  {
    if j > lo && IsTrimmable(t[j - 1]) then EndKept(t, lo, j - 1) else j
  }

  /** `String.prototype.trim`. */
  function Trim(t: Text): (r: Text)
    ensures exists lo, hi :: IsTrimSlice(t, lo, hi) && r == t[lo..hi]
  {
    var lo := FirstKept(t, 0);
    var hi := EndKept(t, lo, |t|);
    assert IsTrimSlice(t, lo, hi);
    t[lo..hi]
  }

  /** The slice trimming leaves is unique, so `IsTrimSlice` alone determines `Trim`. */
  lemma TrimSliceUnique(t: Text, lo: int, hi: int, lo': int, hi': int)
    requires IsTrimSlice(t, lo, hi) && IsTrimSlice(t, lo', hi')
    ensures t[lo..hi] == t[lo'..hi']
  {
  }

  /** `Trim(t)` is the unique trim slice of `t`. */
  lemma TrimIsTheTrimSlice(t: Text, lo: int, hi: int)
    requires IsTrimSlice(t, lo, hi)
    ensures Trim(t) == t[lo..hi]
  {
  }

  /** Trimming yields the empty string exactly when every code unit is trimmable. */
  lemma TrimEmptyIffAllTrimmable(t: Text)
    ensures Trim(t) == [] <==> AllTrimmable(t)
  {
  }

  /** Trimming twice is trimming once. */
  lemma TrimIdempotent(t: Text)
    ensures Trim(Trim(t)) == Trim(t)
  {
  }

  /** An ASCII upper-case letter. */
  predicate IsAsciiUpper(c: char) {
    'A' <= c <= 'Z'
  }

  /** `toLowerCase` on one character, for the ASCII letters. */
  function LowerAscii(c: char): (r: char)
    ensures IsAsciiUpper(c) ==> r as int == c as int + 32
    ensures !IsAsciiUpper(c) ==> r == c
    ensures !IsAsciiUpper(r)
    ensures IsAsciiUpper(c) ==> 'a' <= r <= 'z'
  {
    if IsAsciiUpper(c) then (c as int + 32) as char else c
  }

  /** `String.prototype.toLowerCase`, mapping only the ASCII letters. */
  function ToLowerAscii(s: string): (r: string)
    ensures |r| == |s|
    ensures forall i :: 0 <= i < |s| ==> r[i] == LowerAscii(s[i])
    ensures NoAsciiUpper(r)
    ensures EqualIgnoringAsciiCase(s, r)
  {
    seq(|s|, i requires 0 <= i < |s| => LowerAscii(s[i]))
  }

  /** No ASCII upper-case letter occurs in `s`. */
  predicate NoAsciiUpper(s: string) {
    forall i :: 0 <= i < |s| ==> !IsAsciiUpper(s[i])
  }

  /** `a` and `b` are equal up to the case of ASCII letters. */
  predicate EqualIgnoringAsciiCase(a: string, b: string) {
    |a| == |b| && forall i :: 0 <= i < |a| ==> LowerAscii(a[i]) == LowerAscii(b[i])
  }

  /** Lower-casing yields a lower-case word `w` exactly when the input equals `w` up to ASCII case. */
  lemma ToLowerAsciiMatches(s: string, w: string)
    requires NoAsciiUpper(w)
    ensures ToLowerAscii(s) == w <==> EqualIgnoringAsciiCase(s, w)
  {
  }

  /** Lowering a character twice is lowering it once. */
  lemma LowerAsciiIdempotent(c: char)
    ensures LowerAscii(LowerAscii(c)) == LowerAscii(c)
  {
  }

  /** Lower-casing is idempotent and leaves no ASCII upper-case letter. */
  lemma ToLowerAsciiIdempotent(s: string)
    ensures NoAsciiUpper(ToLowerAscii(s))
    ensures ToLowerAscii(ToLowerAscii(s)) == ToLowerAscii(s)
  {
  }

  /** The upper-case ASCII alphabet lowers to the lower-case one, letter by letter. */
  lemma LowerAlphabet()
    ensures ToLowerAscii("ABCDEFGHIJKLMNOPQRSTUVWXYZ") == "abcdefghijklmnopqrstuvwxyz"
  {
  }
}
