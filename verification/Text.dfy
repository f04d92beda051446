/** The two string operations the core relies on: ordinal case-insensitive
    comparison (`StringComparison.OrdinalIgnoreCase`) and `string.TrimEnd(char)`. */
module Text {

  /** ASCII lower-casing of one character; every other character is kept.
      This stands in for the per-character case mapping of `OrdinalIgnoreCase`. */
  function FoldChar(c: char): char
  {
    if 'A' <= c <= 'Z' then (c as int - 'A' as int + 'a' as int) as char else c
  }

  /** Case folding of a whole string. */
  function Fold(s: string): string
  {
    seq(|s|, k requires 0 <= k < |s| => FoldChar(s[k]))
  }

  /** `string.Equals(a, b, StringComparison.OrdinalIgnoreCase)`. */
  predicate EqualsIgnoreCase(a: string, b: string)
  {
    Fold(a) == Fold(b)
  }

  /** Ordinal case-insensitive equality is a character-by-character comparison
      of the folded characters of two strings of the same length. */
  lemma EqualsIgnoreCaseCharwise(a: string, b: string)
    ensures EqualsIgnoreCase(a, b) <==>
              |a| == |b| && forall k :: 0 <= k < |a| ==> FoldChar(a[k]) == FoldChar(b[k])
  {
    if |a| == |b| && forall k :: 0 <= k < |a| ==> FoldChar(a[k]) == FoldChar(b[k]) {
      assert forall k :: 0 <= k < |a| ==> Fold(a)[k] == Fold(b)[k];
    }
    if EqualsIgnoreCase(a, b) {
      assert |a| == |Fold(a)| == |Fold(b)| == |b|;
      forall k | 0 <= k < |a|
        ensures FoldChar(a[k]) == FoldChar(b[k])
      {
        assert Fold(a)[k] == Fold(b)[k];
      }
    }
  }

  /** Folding is idempotent: a folded string compares equal to its source. */
  lemma FoldIdempotent(s: string)
    ensures Fold(Fold(s)) == Fold(s)
    ensures EqualsIgnoreCase(Fold(s), s)
  {
    assert forall k :: 0 <= k < |s| ==> Fold(Fold(s))[k] == Fold(s)[k];
  }

  /** Every character of `r` from position `from` on equals `c`. */
  predicate AllFrom(r: string, from: nat, c: char)
  {
    forall k :: from <= k < |r| ==> r[k] == c
  }

  /** `s.TrimEnd(c)`: removes every trailing occurrence of `c`. The result is
      the longest prefix of `s` that does not end in `c` and is followed only by `c`s. */
  function TrimEnd(s: string, c: char): (r: string)
    ensures r <= s
    ensures |r| == 0 || r[|r| - 1] != c
    ensures AllFrom(s, |r|, c)
    decreases |s|
  {
    if |s| > 0 && s[|s| - 1] == c then TrimEnd(s[..|s| - 1], c) else s
  }

  /** The three properties of `TrimEnd` determine its result: any prefix with
      them is the trimmed string. */
  lemma TrimEndUnique(s: string, c: char, p: string)
    requires p <= s
    requires |p| == 0 || p[|p| - 1] != c
    requires AllFrom(s, |p|, c)
    ensures TrimEnd(s, c) == p
  {
    var r := TrimEnd(s, c);
    assert |r| == |p|;
  }

  /** Trimming twice trims nothing more. */
  lemma TrimEndIdempotent(s: string, c: char)
    ensures TrimEnd(TrimEnd(s, c), c) == TrimEnd(s, c)
  {
    var r := TrimEnd(s, c);
    TrimEndUnique(r, c, r);
  }
}
