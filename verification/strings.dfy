/**
 * The parts of Go's `strings` package that the mounters use on flag values:
 * TrimSpace, TrimSuffix, Split and SplitN with n = 2. Strings are sequences
 * of Unicode scalar values; Go's byte-level handling of invalid UTF-8 is not
 * modelled.
 */
module GoStrings {

  /** unicode.IsSpace: the Latin-1 spaces and the other White_Space code points. */
  predicate IsSpace(c: char) {
    || c == ' ' || c == '\t' || c == '\n' || c == '\r'
    || c == '\U{000B}' || c == '\U{000C}' || c == '\U{0085}' || c == '\U{00A0}'
    || c == '\U{1680}' || ('\U{2000}' <= c <= '\U{200A}')
    || c == '\U{2028}' || c == '\U{2029}' || c == '\U{202F}' || c == '\U{205F}'
    || c == '\U{3000}'
  }

  /** The end of the run of white space that starts at index `i`. */
  function SpaceRunEnd(s: string, i: nat): (j: nat)
    requires i <= |s|
    ensures i <= j <= |s|
    ensures forall k :: i <= k < j ==> IsSpace(s[k])
    ensures j == |s| || !IsSpace(s[j])
    decreases |s| - i
  {
    if i < |s| && IsSpace(s[i]) then SpaceRunEnd(s, i + 1) else i
  }

  /** The start of the run of white space that ends just before index `j`. */
  function SpaceRunStart(s: string, j: nat): (i: nat)
    requires j <= |s|
    ensures i <= j
    ensures forall k :: i <= k < j ==> IsSpace(s[k])
    ensures i == 0 || !IsSpace(s[i - 1])
  {
    if j > 0 && IsSpace(s[j - 1]) then SpaceRunStart(s, j - 1) else j
  }

  /**
   * strings.TrimSpace: the slice of `s` between its leading and its
   * trailing white space. The result neither starts nor ends with white
   * space, and everything cut on either side is white space.
   */
  function TrimSpace(s: string): (r: string)
    ensures exists i, j :: 0 <= i <= j <= |s| && r == s[i..j]
              && (forall k :: 0 <= k < i ==> IsSpace(s[k]))
              && (forall k :: j <= k < |s| ==> IsSpace(s[k]))
    ensures r == [] || (!IsSpace(r[0]) && !IsSpace(r[|r| - 1]))
  {
    var i := SpaceRunEnd(s, 0);
    if i == |s| then
      assert s[i..i] == [];
      []
    else
      var j := SpaceRunStart(s, |s|);
      assert i < j;
      s[i..j]
  }

  /** Trimming is idempotent: a trimmed string has nothing left to trim. */
  lemma TrimSpaceIdempotent(s: string)
    ensures TrimSpace(TrimSpace(s)) == TrimSpace(s)
  {
    var t := TrimSpace(s);
    if t != [] {
      assert SpaceRunEnd(t, 0) == 0;
      assert SpaceRunStart(t, |t|) == |t|;
      assert t[0..|t|] == t;
    }
  }

  predicate HasSuffix(s: string, suffix: string) {
    |suffix| <= |s| && s[|s| - |suffix|..] == suffix
  }

  /** strings.TrimSuffix: removes ONE copy of `suffix` when `s` ends with it. */
  function TrimSuffix(s: string, suffix: string): (r: string)
    ensures HasSuffix(s, suffix) ==> r + suffix == s
    ensures !HasSuffix(s, suffix) ==> r == s
  {
    if HasSuffix(s, suffix) then s[..|s| - |suffix|] else s
  }

  /** Only one trailing slash is removed: "/etc/config//" becomes "/etc/config/". */
  lemma TrimSuffixRemovesOneSlash(s: string)
    requires !HasSuffix(s, "/")
    ensures TrimSuffix(s + "/", "/") == s
    ensures TrimSuffix(s + "//", "/") == s + "/"
  {
    assert HasSuffix(s + "/", "/");
    assert (s + "/")[..|s|] == s;
    assert HasSuffix(s + "//", "/");
    assert (s + "//")[..|s| + 1] == s + "/";
  }

  /** Index of the first occurrence of `c` in `s`. */
  function IndexOf(s: string, c: char): (i: nat)
    requires c in s
    ensures i < |s| && s[i] == c && c !in s[..i]
  {
    if s[0] == c then 0
    else
      var i := IndexOf(s[1..], c);
      assert s[1..][..i] == s[1..i + 1];
      i + 1
  }

  /** Number of occurrences of `c` in `s`. */
  function Count(s: string, c: char): (n: nat)
    ensures n == 0 <==> c !in s
  {
    if s == [] then 0 else (if s[0] == c then 1 else 0) + Count(s[1..], c)
  }

  /** Counting distributes over concatenation. */
  lemma {:induction false} CountAppend(a: string, b: string, c: char)
    ensures Count(a + b, c) == Count(a, c) + Count(b, c)
  {
    if a != [] {
      assert (a + b)[1..] == a[1..] + b;
      CountAppend(a[1..], b, c);
    } else {
      assert a + b == b;
    }
  }

  /** The inverse of Split: the parts glued back together with `sep`. */
  function Join(parts: seq<string>, sep: char): string
    requires |parts| >= 1
  {
    if |parts| == 1 then parts[0] else parts[0] + [sep] + Join(parts[1..], sep)
  }

  /** Cutting `s` at its first separator: one separator fewer is left after the cut. */
  lemma {:induction false} CountAtFirst(s: string, sep: char)
    requires sep in s
    ensures Count(s, sep) == Count(s[IndexOf(s, sep) + 1..], sep) + 1
    ensures s == s[..IndexOf(s, sep)] + [sep] + s[IndexOf(s, sep) + 1..]
  {
    var i := IndexOf(s, sep);
    if s[0] != sep {
      CountAtFirst(s[1..], sep);
      assert s[1..][i..] == s[i + 1..];
    }
  }

  /**
   * strings.Split with a one-character separator: `sep`-free parts that
   * join back to `s`, one more part than `s` has separators. Like Go,
   * an empty `s` gives one empty part.
   */
  function Split(s: string, sep: char): (parts: seq<string>)
    ensures |parts| == Count(s, sep) + 1
    ensures forall i :: 0 <= i < |parts| ==> sep !in parts[i]
    ensures Join(parts, sep) == s
    decreases |s|
  {
    if sep !in s then [s]
    else
      var i := IndexOf(s, sep);
      var rest := Split(s[i + 1..], sep);
      CountAtFirst(s, sep);
      var parts := [s[..i]] + rest;
      assert parts[1..] == rest;
      parts
  }

  /**
   * strings.SplitN(s, sep, 2): `s` itself when it has no separator, else
   * the text before the first separator and everything after it.
   */
  function SplitN2(s: string, sep: char): (parts: seq<string>)
    ensures |parts| == (if sep in s then 2 else 1)
    ensures sep !in parts[0]
    ensures Join(parts, sep) == s
  {
    if sep !in s then [s]
    else
      var i := IndexOf(s, sep);
      assert s == s[..i] + [sep] + s[i + 1..];
      [s[..i], s[i + 1..]]
  }

  /** The first part is the same whichever way the string is split. */
  lemma {:induction false} SplitN2AgreesWithSplit(s: string, sep: char)
    ensures SplitN2(s, sep)[0] == Split(s, sep)[0]
    ensures Count(s, sep) <= 1 ==> SplitN2(s, sep) == Split(s, sep)
  {
    if sep in s {
      CountAtFirst(s, sep);
    }
  }
}
