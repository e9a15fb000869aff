/**
 * Character-level helpers shared by the command parser, the slug builder and
 * the e-mail comparison: Python's notion of whitespace (`str.isspace`, the
 * `\s` class of `re`), `str.strip()`, and lower-casing for the letters the bot
 * meets (Latin and Cyrillic).
 */
module Text {

  /** `str.isspace()` of Python 3, which is also what `\s` matches in a `str` pattern. */
  predicate IsSpace(c: char) {
    var n := c as int;
    (0x09 <= n <= 0x0D) || (0x1C <= n <= 0x20) || n == 0x85 || n == 0xA0 || n == 0x1680
    || (0x2000 <= n <= 0x200A) || n == 0x2028 || n == 0x2029 || n == 0x202F
    || n == 0x205F || n == 0x3000
  }

  /**
   * Lower-casing of one character: ASCII A-Z and the Cyrillic capitals
   * U+0400..U+042F; every other character is left alone.
   */
  function Lower(c: char): (r: char)
    ensures 'A' <= c <= 'Z' ==> r as int == c as int + 32
    ensures r != c ==> 'a' <= r && !IsSpace(r) && !IsSpace(c)
    ensures !('A' <= c <= 'Z') && !(0x400 <= c as int <= 0x42F) ==> r == c
  {
    var n := c as int;
    if 'A' as int <= n <= 'Z' as int then (n + 32) as char
    else if 0x410 <= n <= 0x42F then (n + 32) as char
    else if 0x400 <= n <= 0x40F then (n + 80) as char
    else c
  }

  /** `s.lower()`, character by character. */
  function LowerStr(s: string): (r: string)
    ensures |r| == |s|
    ensures forall i :: 0 <= i < |s| ==> r[i] == Lower(s[i])
  {
    seq(|s|, i requires 0 <= i < |s| => Lower(s[i]))
  }

  /** Case-insensitive equality of two strings, as `re.IGNORECASE` compares a literal. */
  predicate EqualIgnoreCase(a: string, b: string) {
    |a| == |b| && forall i :: 0 <= i < |a| ==> Lower(a[i]) == Lower(b[i])
  }

  /** Nothing but whitespace in `s`. */
  predicate AllSpace(s: string) {
    forall i :: 0 <= i < |s| ==> IsSpace(s[i])
  }

  /** No whitespace anywhere in `s`. */
  predicate HasNoSpace(s: string) {
    forall i :: 0 <= i < |s| ==> !IsSpace(s[i])
  }

  /** The end of the whitespace run that starts at index `i` of `s`. */
  function SkipSpace(s: string, i: int): (k: int)
    requires 0 <= i <= |s|
    ensures i <= k <= |s|
    ensures forall j :: i <= j < k ==> IsSpace(s[j])
    ensures k == |s| || !IsSpace(s[k])
    decreases |s| - i
  {
    if i < |s| && IsSpace(s[i]) then SkipSpace(s, i + 1) else i
  }

  /** The start of the whitespace run that ends just before index `j` of `s`. */
  function SkipSpaceBack(s: string, j: int): (k: int)
    requires 0 <= j <= |s|
    ensures 0 <= k <= j
    ensures forall i :: k <= i < j ==> IsSpace(s[i])
    ensures k == 0 || !IsSpace(s[k - 1])
  {
    if j > 0 && IsSpace(s[j - 1]) then SkipSpaceBack(s, j - 1) else j
  }

  /** Drops the leading whitespace run: `s.lstrip()`. */
  function TrimStart(s: string): (r: string)
    ensures |r| <= |s| && r == s[|s| - |r|..]
    ensures r == [] || !IsSpace(r[0])
    ensures AllSpace(s[..|s| - |r|])
  {
    s[SkipSpace(s, 0)..]
  }

  /** The leading whitespace run is the one that ends at the first other character. */
  lemma TrimStartAt(s: string, k: int)
    requires 0 <= k <= |s| && AllSpace(s[..k])
    requires k == |s| || !IsSpace(s[k])
    ensures TrimStart(s) == s[k..]
  {
    var m := SkipSpace(s, 0);
    if m < k {
      assert s[..k][m] == s[m];
    }
  }

  /** A string with no whitespace at either end. */
  predicate IsStripped(s: string) {
    s == [] || (!IsSpace(s[0]) && !IsSpace(s[|s| - 1]))
  }

  /** `s.strip()`: `s` without its leading and trailing whitespace runs. */
  function Strip(s: string): (r: string)
    ensures IsStripped(r)
    ensures |r| <= |s| && multiset(r) <= multiset(s)
    ensures IsStripped(s) ==> r == s
    ensures s != [] && !IsSpace(s[0]) ==> r != [] && r[0] == s[0]
  {
    var a := SkipSpace(s, 0);
    var b := SkipSpaceBack(s, |s|);
    if b <= a then []
    else
      assert s == s[..a] + s[a..b] + s[b..];
      s[a..b]
  }

  /** What `strip` removes is whitespace: `s` is the stripped text between two whitespace runs. */
  lemma StripParts(s: string) returns (lead: string, trail: string)
    ensures s == lead + Strip(s) + trail
    ensures AllSpace(lead) && AllSpace(trail)
  {
    var a := SkipSpace(s, 0);
    var b := SkipSpaceBack(s, |s|);
    var c := if b <= a then a else b;
    lead, trail := s[..a], s[c..];
    assert AllSpace(lead) by {
      forall i | 0 <= i < a
        ensures IsSpace(lead[i])
      {
        assert lead[i] == s[i];
      }
    }
    assert AllSpace(trail) by {
      forall i | 0 <= i < |s| - c
        ensures IsSpace(trail[i])
      {
        assert trail[i] == s[c + i];
      }
    }
    assert s == lead + s[a..c] + trail;
  }
}
