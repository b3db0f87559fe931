/**
 * String operations the core relies on, written out because the model has no
 * runtime library: substring search, prefix tests, the two whitespace-strip
 * operations (Python `str.strip()` and JavaScript `String.prototype.trim()`,
 * which disagree on what counts as whitespace), ASCII case mapping and
 * Python's `str.replace(old, "")`.
 */
module Text {
  import opened Wrappers

  /** `p` occurs in `s` starting at index `k`. */
  predicate OccursAt(s: string, p: string, k: int) {
    0 <= k && k + |p| <= |s| && s[k..k + |p|] == p
  }

  /** Python's `p in s` and JavaScript's `s.includes(p)`. */
  predicate Contains(s: string, p: string) {
    exists k :: 0 <= k <= |s| && OccursAt(s, p, k)
  }

  /** Python's `s.startswith(p)`. */
  predicate StartsWith(s: string, p: string) {
    OccursAt(s, p, 0)
  }

  /** The smallest index `k >= from` at which `p` occurs in `s`, if any. */
  function FirstOccurrence(s: string, p: string, from: nat): (r: Option<nat>)
    ensures r.Some? ==> from <= r.value && OccursAt(s, p, r.value)
    ensures forall k :: from <= k && (r.None? || k < r.value) ==> !OccursAt(s, p, k)
    decreases |s| - from
  {
    if from + |p| > |s| then None
    else if s[from..from + |p|] == p then Some(from)
    else FirstOccurrence(s, p, from + 1)
  }

  // ---------------------------------------------------------------------------
  // Whitespace
  // ---------------------------------------------------------------------------

  /** Whose notion of whitespace applies: Python's `str.strip()` or JavaScript's `trim()`. */
  datatype Runtime = Python | JavaScript

  /**
   * For Python, the characters for which `str.isspace()` holds; for
   * JavaScript, the ECMAScript WhiteSpace and LineTerminator characters.
   */
  predicate IsSpace(rt: Runtime, c: char) {
    c == '\t' || c == '\n' || c == '\U{000B}' || c == '\U{000C}' || c == '\r'
    || c == ' ' || c == '\U{00A0}' || c == '\U{1680}' || ('\U{2000}' <= c <= '\U{200A}')
    || c == '\U{2028}' || c == '\U{2029}' || c == '\U{202F}' || c == '\U{205F}'
    || c == '\U{3000}'
    || (rt == Python && (('\U{001C}' <= c <= '\U{001F}') || c == '\U{0085}'))
    || (rt == JavaScript && c == '\U{FEFF}')
  }

  /** The first index at or after `i` that does not hold a space (`|s|` if none). */
  function SkipSpaces(rt: Runtime, s: string, i: nat): (n: nat)
    requires i <= |s|
    ensures i <= n <= |s|
    ensures forall k :: i <= k < n ==> IsSpace(rt, s[k])
    ensures n < |s| ==> !IsSpace(rt, s[n])
    decreases |s| - i
  {
    if i < |s| && IsSpace(rt, s[i]) then SkipSpaces(rt, s, i + 1) else i
  }

  /** The end of `s[lo..j]` once its trailing spaces are dropped. */
  function DropTrailingSpaces(rt: Runtime, s: string, lo: nat, j: nat): (m: nat)
    requires lo <= j <= |s|
    ensures lo <= m <= j
    ensures forall k :: m <= k < j ==> IsSpace(rt, s[k])
    ensures m > lo ==> !IsSpace(rt, s[m - 1])
    decreases j
  {
    if j > lo && IsSpace(rt, s[j - 1]) then DropTrailingSpaces(rt, s, lo, j - 1) else j
  }

  /**
   * `s` without leading and trailing spaces: the result is empty exactly when
   * every character of `s` is a space, and otherwise begins and ends with a
   * character that is not.
   */
  function Trim(rt: Runtime, s: string): (r: string)
    ensures r == [] <==> forall k :: 0 <= k < |s| ==> IsSpace(rt, s[k])
    ensures r != [] ==> !IsSpace(rt, r[0]) && !IsSpace(rt, r[|r| - 1])
  {
    var a := SkipSpaces(rt, s, 0);
    var b := DropTrailingSpaces(rt, s, a, |s|);
    assert a < |s| ==> a < b;
    s[a..b]
  }

  /** Python's `s.strip()`. */
  function PyStrip(s: string): string {
    Trim(Python, s)
  }

  /** JavaScript's `s.trim()`. */
  function JsTrim(s: string): string {
    Trim(JavaScript, s)
  }

  /** Trim keeps one contiguous slice of its input and drops only spaces around it. */
  lemma TrimIsSlice(rt: Runtime, s: string)
    ensures var a := SkipSpaces(rt, s, 0);
            var r := Trim(rt, s);
            a + |r| <= |s| && r == s[a..a + |r|]
            && (forall k :: 0 <= k < a ==> IsSpace(rt, s[k]))
            && (forall k :: a + |r| <= k < |s| ==> IsSpace(rt, s[k]))
  {
    var a := SkipSpaces(rt, s, 0);
    var b := DropTrailingSpaces(rt, s, a, |s|);
    assert Trim(rt, s) == s[a..b];
  }

  /** Trimming twice is the same as trimming once. */
  lemma TrimIdempotent(rt: Runtime, s: string)
    ensures Trim(rt, Trim(rt, s)) == Trim(rt, s)
  {
    var r := Trim(rt, s);
    if r != [] {
      assert SkipSpaces(rt, r, 0) == 0;
      assert DropTrailingSpaces(rt, r, 0, |r|) == |r|;
      assert r[0..|r|] == r;
    }
  }

  // ---------------------------------------------------------------------------
  // ASCII case mapping
  // ---------------------------------------------------------------------------

  function LowerChar(c: char): char {
    if 'A' <= c <= 'Z' then (c as int + 32) as char else c
  }

  function UpperChar(c: char): char {
    if 'a' <= c <= 'z' then (c as int - 32) as char else c
  }

  /** Every ASCII capital mapped to its small letter; every other character kept. */
  function AsciiLower(s: string): (r: string)
    ensures |r| == |s|
  {
    seq(|s|, k requires 0 <= k < |s| => LowerChar(s[k]))
  }

  /** Every ASCII small letter mapped to its capital; every other character kept. */
  function AsciiUpper(s: string): (r: string)
    ensures |r| == |s|
  {
    seq(|s|, k requires 0 <= k < |s| => UpperChar(s[k]))
  }

  /** Lower-casing a text lower-cases each of its occurrences in place. */
  lemma LowerKeepsOccurrence(s: string, q: string, k: int)
    requires OccursAt(s, q, k)
    ensures OccursAt(AsciiLower(s), AsciiLower(q), k)
  {
    var l := AsciiLower(s);
    assert l[k..k + |q|] == AsciiLower(q) by {
      forall n | 0 <= n < |q| ensures l[k..k + |q|][n] == AsciiLower(q)[n] {
        assert s[k + n] == q[n];
      }
    }
  }

  // ---------------------------------------------------------------------------
  // Python's str.replace(p, "")
  // ---------------------------------------------------------------------------

  /**
   * `s[i..]` with every occurrence of `p` removed, scanning left to right and
   * resuming after each removed occurrence.
   */
  function RemoveFrom(s: string, p: string, i: nat): string
    requires p != [] && i <= |s|
    decreases |s| - i
  {
    if i + |p| > |s| then s[i..]
    else if s[i..i + |p|] == p then RemoveFrom(s, p, i + |p|)
    else [s[i]] + RemoveFrom(s, p, i + 1)
  }

  /**
   * Python's `s.replace(p, "")` for a non-empty `p`: every occurrence found by
   * a left-to-right scan is removed, and overlapping occurrences are removed once.
   */
  function ReplaceAll(s: string, p: string): string
    requires p != []
  {
    RemoveFrom(s, p, 0)
  }

  /**
   * The characters in front of the next occurrence pass through untouched:
   * when `p` starts nowhere in `[i, n)`, removal from `i` keeps `s[i..n]`.
   */
  lemma {:induction false} RemoveFromKeeps(s: string, p: string, i: nat, n: nat)
    requires p != [] && i <= n <= |s|
    requires forall k :: i <= k < n ==> !OccursAt(s, p, k)
    ensures RemoveFrom(s, p, i) == s[i..n] + RemoveFrom(s, p, n)
    decreases n - i
  {
    if i < n {
      RemoveFromKeeps(s, p, i + 1, n);
      assert !OccursAt(s, p, i);
      if i + |p| > |s| {
        assert RemoveFrom(s, p, i + 1) == s[i + 1..];
        assert s[i..] == [s[i]] + s[i + 1..];
      }
      assert s[i..n] == [s[i]] + s[i + 1..n];
    }
  }

  /** Removing a text that does not occur changes nothing. */
  lemma ReplaceAllAbsent(s: string, p: string)
    requires p != []
    requires !Contains(s, p)
    ensures ReplaceAll(s, p) == s
  {
    RemoveFromKeeps(s, p, 0, |s|);
    assert s[0..|s|] == s;
  }

  /** An occurrence where the scan stands is removed and the scan resumes after it. */
  lemma RemoveFromSkips(s: string, p: string, i: nat)
    requires p != [] && i <= |s|
    requires OccursAt(s, p, i)
    ensures RemoveFrom(s, p, i) == RemoveFrom(s, p, i + |p|)
  {
  }
}
