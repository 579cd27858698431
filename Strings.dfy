/** String helpers behind the library calls the core relies on: `split(sep).pop()` and
    `toLowerCase()` in the browser script, `os.path.basename` in the notebook, and
    `String.prototype.trim` and `replace(/\/$/, '')` for the backend URL. */
module Strings {

  /** The text after the last `sep` in `s`, or all of `s` when `sep` does not occur. Its
      properties are stated apart, in LastSegmentSpec, so that callers that only compare paths
      do not unfold them. */
  function LastSegment(s: string, sep: char): string
    decreases |s|
  {
    if s == [] || s[|s| - 1] == sep then []
    else LastSegment(s[..|s| - 1], sep) + [s[|s| - 1]]
  }

  /** LastSegment is a suffix of `s`, holds no `sep`, and is either all of `s` or preceded by a
      `sep`. */
  lemma {:induction false} LastSegmentSpec(s: string, sep: char)
    ensures var r := LastSegment(s, sep);
            && |r| <= |s| && r == s[|s| - |r|..]
            && sep !in r
            && (|r| == |s| || s[|s| - |r| - 1] == sep)
    decreases |s|
  {
    if s != [] && s[|s| - 1] != sep {
      LastSegmentSpec(s[..|s| - 1], sep);
    }
  }

  /** The three properties in LastSegment's contract pin its result down: it is the longest
      suffix of `s` free of `sep`. */
  lemma {:induction false} LastSegmentUnique(s: string, sep: char, r: string)
    requires |r| <= |s| && r == s[|s| - |r|..]
    requires sep !in r
    requires |r| == |s| || s[|s| - |r| - 1] == sep
    ensures r == LastSegment(s, sep)
  {
    LastSegmentSpec(s, sep);
  }

  /** A string with no `sep` is its own last segment. */
  lemma LastSegmentOfSeparatorFree(s: string, sep: char)
    requires sep !in s
    ensures LastSegment(s, sep) == s
  {
  }

  /** Whatever precedes the last separator is ignored. */
  lemma LastSegmentAfterSeparator(prefix: string, sep: char, tail: string)
    requires sep !in tail
    ensures LastSegment(prefix + [sep] + tail, sep) == tail
  {
    var s := prefix + [sep] + tail;
    assert s[|s| - |tail|..] == tail;
    LastSegmentUnique(s, sep, tail);
  }

  /** ASCII lower-casing of one character. */
  function LowerChar(c: char): char
  {
    if 'A' <= c <= 'Z' then (c as int + 32) as char else c
  }

  function Lower(s: string): (r: string)
    ensures |r| == |s|
    ensures forall i :: 0 <= i < |s| ==> r[i] == LowerChar(s[i])
  {
    if s == [] then [] else [LowerChar(s[0])] + Lower(s[1..])
  }

  lemma LowerAppend(a: string, b: string)
    ensures Lower(a + b) == Lower(a) + Lower(b)
  {
  }

  /** The characters `String.prototype.trim` removes: ECMAScript WhiteSpace (tab, vertical tab,
      form feed, space, no-break space, byte order mark and the Zs category) and LineTerminator
      (line feed, carriage return, line and paragraph separators). */
  predicate IsJsSpace(c: char)
  {
    var n := c as int;
    n == 0x09 || n == 0x0A || n == 0x0B || n == 0x0C || n == 0x0D || n == 0x20
    || n == 0xA0 || n == 0x1680 || (0x2000 <= n <= 0x200A) || n == 0x2028 || n == 0x2029
    || n == 0x202F || n == 0x205F || n == 0x3000 || n == 0xFEFF
  }

  /** The first index at or after `i` that does not hold white space (`|s|` if none). */
  function SpaceRunEnd(s: string, i: nat): (k: nat)
    requires i <= |s|
    ensures i <= k <= |s|
    ensures forall m :: i <= m < k ==> IsJsSpace(s[m])
    ensures k == |s| || !IsJsSpace(s[k])
    decreases |s| - i
  {
    if i < |s| && IsJsSpace(s[i]) then SpaceRunEnd(s, i + 1) else i
  }

  /** The start of the run of white space that ends at `j`, looking no further back than `lo`. */
  function SpaceRunStart(s: string, lo: nat, j: nat): (k: nat)
    requires lo <= j <= |s|
    ensures lo <= k <= j
    ensures forall m :: k <= m < j ==> IsJsSpace(s[m])
    ensures k == lo || !IsJsSpace(s[k - 1])
    decreases j - lo
  {
    if lo < j && IsJsSpace(s[j - 1]) then SpaceRunStart(s, lo, j - 1) else j
  }

  /** JavaScript's `trim()`: `s` without its leading and trailing white space. Its properties
      are stated apart, in TrimSpec, so that callers that only test it for emptiness do not
      unfold them. */
  function Trim(s: string): string
  {
    var start := SpaceRunEnd(s, 0);
    s[start..SpaceRunStart(s, start, |s|)]
  }

  /** The trimmed string is the part of `s` between a white-space prefix and a white-space
      suffix; it is empty exactly when `s` is all white space, and otherwise starts and ends
      with a character that is not white space. */
  lemma TrimSpec(s: string)
    ensures var lead := SpaceRunEnd(s, 0);
            && lead + |Trim(s)| <= |s| && Trim(s) == s[lead..lead + |Trim(s)|]
            && (forall i :: 0 <= i < lead ==> IsJsSpace(s[i]))
            && (forall i :: lead + |Trim(s)| <= i < |s| ==> IsJsSpace(s[i]))
    ensures Trim(s) == [] <==> forall i :: 0 <= i < |s| ==> IsJsSpace(s[i])
    ensures Trim(s) != [] ==> !IsJsSpace(Trim(s)[0]) && !IsJsSpace(Trim(s)[|Trim(s)| - 1])
  {
  }

  /** `s.replace(/\/$/, '')`: drops one '/' at the very end, if there is one, and no more. */
  function StripTrailingSlash(s: string): (r: string)
    ensures s == r || s == r + "/"
    ensures (s != [] && s[|s| - 1] == '/') <==> s == r + "/"
  {
    if s != [] && s[|s| - 1] == '/' then s[..|s| - 1] else s
  }
}
