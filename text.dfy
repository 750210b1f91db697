/**
 * The JavaScript string operations the core relies on, on `seq<char>`:
 * whitespace as `\s` and `String.prototype.trim` see it, `includes`,
 * `indexOf`, the second piece of `split`, and lower-casing.
 */
module Text {
  /** The characters JavaScript counts as whitespace in `\s` and `trim`. */
  predicate IsSpace(c: char) {
    c == '\t' || c == '\n' || c == '\U{000B}' || c == '\U{000C}' || c == '\r' || c == ' '
    || c == '\U{00A0}' || c == '\U{1680}' || ('\U{2000}' <= c <= '\U{200A}')
    || c == '\U{2028}' || c == '\U{2029}' || c == '\U{202F}' || c == '\U{205F}'
    || c == '\U{3000}' || c == '\U{FEFF}'
  }

  predicate IsDigit(c: char) { '0' <= c <= '9' }

  predicate IsUpper(c: char) { 'A' <= c <= 'Z' }

  predicate IsLower(c: char) { 'a' <= c <= 'z' }

  predicate IsLetter(c: char) { IsUpper(c) || IsLower(c) }

  /** A character JavaScript stores in one UTF-16 code unit; any other takes a surrogate pair. */
  predicate InBmp(c: char) { c as int <= 0xFFFF }

  /**
   * `s.length`: JavaScript counts UTF-16 code units, so a character beyond
   * U+FFFF counts twice.
   */
  function Utf16Length(s: string): (n: nat)
    ensures |s| <= n <= 2 * |s|
    ensures (forall i | 0 <= i < |s| :: InBmp(s[i])) <==> n == |s|
  {
    if s == [] then 0
    else
      var rest := Utf16Length(s[1..]);
      assert forall i | 0 <= i < |s[1..]| :: s[1..][i] == s[i + 1];
      (if InBmp(s[0]) then 1 else 2) + rest
  }

  /** `toLowerCase` on one character, for the ASCII letters only. */
  function LowerChar(c: char): (d: char)
    ensures !IsUpper(d)
    ensures IsUpper(c) ==> d as int == c as int + 32
    ensures !IsUpper(c) ==> d == c
  {
    if IsUpper(c) then (c as int + 32) as char else c
  }

  function ToLower(s: string): (r: string)
    ensures |r| == |s|
    ensures forall i :: 0 <= i < |s| ==> r[i] == LowerChar(s[i])
  {
    if s == [] then [] else [LowerChar(s[0])] + ToLower(s[1..])
  }

  lemma ToLowerIdempotent(s: string)
    ensures ToLower(ToLower(s)) == ToLower(s)
  {
    assert forall i :: 0 <= i < |s| ==> LowerChar(LowerChar(s[i])) == LowerChar(s[i]);
  }

  /** `t` occurs in `s` starting at index `i`. */
  predicate OccursAt(s: string, t: string, i: int) {
    0 <= i && i + |t| <= |s| && s[i..i + |t|] == t
  }

  /** `s.includes(t)`. */
  predicate Contains(s: string, t: string) {
    exists i | 0 <= i <= |s| - |t| :: OccursAt(s, t, i)
  }

  /** `s.indexOf(t, from)`: the first occurrence at or after `from`, or -1. */
  function IndexOf(s: string, t: string, from: nat): (r: int)
    ensures r == -1 || (from <= r && OccursAt(s, t, r))
    ensures r == -1 ==> forall i :: from <= i ==> !OccursAt(s, t, i)
    ensures r != -1 ==> forall i :: from <= i < r ==> !OccursAt(s, t, i)
    decreases |s| - from
  {
    if from + |t| > |s| then -1
    else if s[from..from + |t|] == t then from
    else IndexOf(s, t, from + 1)
  }

  /** A character of `t` that `s` lacks keeps `t` out of `s`. */
  lemma AbsentByChar(s: string, t: string, k: int)
    requires 0 <= k < |t| && t[k] !in s
    ensures !Contains(s, t)
  {
    forall i | 0 <= i <= |s| - |t|
      ensures !OccursAt(s, t, i)
    {
      assert s[i + k] in s;
      assert s[i..i + |t|][k] != t[k];
    }
  }

  /** A mismatching character rules out an occurrence at `i`. */
  lemma NotOccursAt(s: string, t: string, i: int, k: int)
    requires 0 <= k < |t| && 0 <= i && (i + |t| > |s| || s[i + k] != t[k])
    ensures !OccursAt(s, t, i)
  {
    if i + |t| <= |s| {
      assert s[i..i + |t|][k] == s[i + k];
    }
  }

  /** When the first character of `t` stands only at `i` in `s`, `t` can occur only at `i`. */
  lemma OnlyOccurrence(s: string, t: string, i: int)
    requires |t| > 0 && forall j | 0 <= j < |s| && s[j] == t[0] :: j == i
    ensures forall j :: OccursAt(s, t, j) ==> j == i
  {
    forall j | OccursAt(s, t, j)
      ensures j == i
    {
      assert s[j..j + |t|][0] == s[j];
    }
  }

  /** An occurrence checked character by character. */
  lemma OccursAtByIndex(s: string, t: string, i: int)
    requires 0 <= i && i + |t| <= |s|
    requires forall k | 0 <= k < |t| :: s[i + k] == t[k]
    ensures OccursAt(s, t, i)
  {
    assert s[i..i + |t|] == t;
  }

  /** A slice of a slice is a slice. */
  lemma SliceOfSlice<T>(s: seq<T>, a: int, b: int, lo: int, hi: int)
    requires 0 <= a <= b <= |s| && 0 <= lo <= hi <= b - a
    ensures s[a..b][lo..hi] == s[a + lo..a + hi]
  {
    var inner := s[a..b];
    forall k | 0 <= k < hi - lo
      ensures inner[lo..hi][k] == s[a + lo..a + hi][k]
    {
      assert inner[lo..hi][k] == inner[lo + k] == s[a + lo + k];
    }
  }

  /** A slice of `s` holds no non-empty `t` when no occurrence of `t` in `s` starts inside the slice. */
  lemma SliceLacks(s: string, t: string, lo: int, hi: int)
    requires 0 <= lo <= hi <= |s| && |t| > 0
    requires forall i :: lo <= i < hi ==> !OccursAt(s, t, i)
    ensures !Contains(s[lo..hi], t)
  {
    var e := s[lo..hi];
    if Contains(e, t) {
      var j :| 0 <= j <= |e| - |t| && OccursAt(e, t, j);
      forall k | 0 <= k < |t|
        ensures s[lo + j + k] == t[k]
      {
        assert e[j..j + |t|][k] == t[k];
      }
      OccursAtByIndex(s, t, lo + j);
    }
  }

  /** `Trim(s)` as a slice of `s`. */
  lemma TrimSlice(s: string) returns (lo: int, hi: int)
    ensures 0 <= lo <= hi <= |s| && Trim(s) == s[lo..hi]
  {
    lo, hi :| 0 <= lo <= hi <= |s| && Trim(s) == s[lo..hi];
  }

  /** The trimmed form of a slice of `s` holds no non-empty `t` when no occurrence of `t` in `s` starts inside the slice. */
  lemma TrimmedSliceLacks(s: string, t: string, start: int, piece: string)
    requires 0 <= start && start + |piece| <= |s| && piece == s[start..start + |piece|] && |t| > 0
    requires forall i :: start <= i < start + |piece| ==> !OccursAt(s, t, i)
    ensures !Contains(Trim(piece), t)
  {
    var lo, hi := TrimSlice(piece);
    SliceOfSlice(s, start, start + |piece|, lo, hi);
    SliceLacks(s, t, start + lo, start + hi);
  }

  lemma IndexOfFindsContains(s: string, t: string)
    ensures Contains(s, t) <==> IndexOf(s, t, 0) != -1
  {
  }

  /**
   * `s.split(m)[1]` for a separator `m` that occurs in `s`: the text after the
   * first occurrence, up to the next occurrence searched from the end of the
   * first one, or to the end of `s`.
   */
  function SecondPiece(s: string, m: string): (r: string)
    requires |m| > 0 && Contains(s, m)
    ensures var a := IndexOf(s, m, 0);
      && a + |m| + |r| <= |s|
      && r == s[a + |m|..a + |m| + |r|]
      && (a + |m| + |r| == |s| || OccursAt(s, m, a + |m| + |r|))
      && forall i :: a + |m| <= i < a + |m| + |r| ==> !OccursAt(s, m, i)
  {
    var a := IndexOf(s, m, 0);
    var b := IndexOf(s, m, a + |m|);
    if b == -1 then s[a + |m|..] else s[a + |m|..b]
  }

  /** The index of the first non-whitespace character at or after `i`, or |s|. */
  function SkipSpaces(s: string, i: nat): (k: nat)
    requires i <= |s|
    ensures i <= k <= |s|
    ensures forall j :: i <= j < k ==> IsSpace(s[j])
    ensures k == |s| || !IsSpace(s[k])
    decreases |s| - i
  {
    if i == |s| || !IsSpace(s[i]) then i else SkipSpaces(s, i + 1)
  }

  /** One past the last whitespace-free position: |s| minus the trailing whitespace. */
  function TrailingStart(s: string, k: nat): (e: nat)
    requires k <= |s|
    ensures e <= k
    ensures forall j :: e <= j < k ==> IsSpace(s[j])
    ensures e == 0 || !IsSpace(s[e - 1])
  {
    if k == 0 || !IsSpace(s[k - 1]) then k else TrailingStart(s, k - 1)
  }

  /**
   * `s.trim()`: `s` without its leading and trailing whitespace.  The result is
   * a contiguous piece of `s`, starts and ends with a non-space, and what was
   * cut off is whitespace only.
   */
  function Trim(s: string): (r: string)
    ensures exists a, b ::
              && 0 <= a <= b <= |s| && r == s[a..b]
              && (forall j :: 0 <= j < a ==> IsSpace(s[j]))
              && (forall j :: b <= j < |s| ==> IsSpace(s[j]))
    ensures r == [] || (!IsSpace(r[0]) && !IsSpace(r[|r| - 1]))
  {
    var a := SkipSpaces(s, 0);
    var b := if a == |s| then a else TrailingStart(s, |s|);
    s[a..b]
  }

  lemma TrimOfTrimmed(s: string)
    requires s == [] || (!IsSpace(s[0]) && !IsSpace(s[|s| - 1]))
    ensures Trim(s) == s
  {
  }

  lemma TrimIdempotent(s: string)
    ensures Trim(Trim(s)) == Trim(s)
  {
    TrimOfTrimmed(Trim(s));
  }

  /** The decimal digits of `n`, as a template literal prints a non-negative integer. */
  function DecimalString(n: nat): (r: string)
    ensures |r| >= 1 && forall i | 0 <= i < |r| :: IsDigit(r[i])
    ensures n < 10 ==> r == [('0' as int + n) as char]
  {
    if n < 10 then [('0' as int + n) as char] else DecimalString(n / 10) + [('0' as int + n % 10) as char]
  }
}
