/** String helpers used by the directory: the page's case-insensitive
    search (`toLowerCase` and `includes`) and the order in which the list
    query returns speakers (`ORDER BY name ASC`). */
module Text {

  /** `toLowerCase` restricted to ASCII: only 'A'..'Z' are changed. */
  function LowerChar(c: char): (d: char)
    ensures 'A' <= c <= 'Z' ==> 'a' <= d <= 'z' && d as int - c as int == 32
    ensures !('A' <= c <= 'Z') ==> d == c
  {
    if 'A' <= c <= 'Z' then (c as int + 32) as char else c
  }

  /** `toLowerCase` on a whole string: the same length, no ASCII capital
      left, and every character other than an ASCII capital kept. */
  function Lower(s: string): (r: string)
    ensures |r| == |s|
    ensures forall i :: 0 <= i < |s| ==> r[i] == LowerChar(s[i])
    ensures forall i :: 0 <= i < |r| ==> !('A' <= r[i] <= 'Z')
    ensures forall i :: 0 <= i < |s| && !('A' <= s[i] <= 'Z') ==> r[i] == s[i]
  {
    seq(|s|, i requires 0 <= i < |s| => LowerChar(s[i]))
  }

  /** Lowering twice is lowering once, so a lowered search term is its own
      lowered form. */
  lemma LowerIdempotent(s: string)
    ensures Lower(Lower(s)) == Lower(s)
  {
    var l := Lower(s);
    forall i | 0 <= i < |s| ensures Lower(l)[i] == l[i] {
      assert LowerChar(LowerChar(s[i])) == LowerChar(s[i]);
    }
  }

  /** `includes`: does `needle` occur as a contiguous block in `hay`? */
  function Contains(hay: string, needle: string): (b: bool)
    ensures b <==> exists k :: OccursAt(hay, needle, k)
    decreases |hay|
  {
    if |needle| > |hay| then false
    else if hay[..|needle|] == needle then
      assert OccursAt(hay, needle, 0);
      true
    else
      ShiftOccurrence(hay, needle);
      Contains(hay[1..], needle)
  }

  /** The search-by-offset reading of `includes`. */
  ghost predicate OccursAt(hay: string, needle: string, k: int)
  {
    0 <= k && k + |needle| <= |hay| && hay[k..k + |needle|] == needle
  }

  /** A needle that is not a prefix of `hay` occurs in `hay` iff it occurs
      in `hay` without its first character. */
  lemma ShiftOccurrence(hay: string, needle: string)
    requires |needle| <= |hay| && hay[..|needle|] != needle
    ensures |hay| > 0
    ensures (exists k :: OccursAt(hay, needle, k)) <==> (exists k :: OccursAt(hay[1..], needle, k))
  {
    if exists k :: OccursAt(hay, needle, k) {
      var k :| OccursAt(hay, needle, k);
      assert k != 0;
      assert hay[1..][k - 1..k - 1 + |needle|] == hay[k..k + |needle|];
      assert OccursAt(hay[1..], needle, k - 1);
    }
    if exists k :: OccursAt(hay[1..], needle, k) {
      var k :| OccursAt(hay[1..], needle, k);
      assert hay[1..][k..k + |needle|] == hay[k + 1..k + 1 + |needle|];
      assert OccursAt(hay, needle, k + 1);
    }
  }

  /** The empty term occurs everywhere, so the page's separate branch for
      an empty search box shows what filtering by `includes` would. */
  lemma EmptyContained(hay: string)
    ensures Contains(hay, "")
  {
    assert hay[..0] == "";
  }

  /** Lexicographic order on names, standing in for the store's collation:
      a proper prefix comes first, otherwise the first differing
      character decides. */
  predicate NameLe(a: string, b: string)
    decreases |a|
  {
    |a| == 0 || (|b| > 0 && (a[0] < b[0] || (a[0] == b[0] && NameLe(a[1..], b[1..]))))
  }

  lemma {:induction false} NameLeReflexive(a: string)
    ensures NameLe(a, a)
    decreases |a|
  {
    if |a| > 0 { NameLeReflexive(a[1..]); }
  }

  lemma {:induction false} NameLeTotal(a: string, b: string)
    ensures NameLe(a, b) || NameLe(b, a)
    decreases |a|
  {
    if |a| > 0 && |b| > 0 && a[0] == b[0] { NameLeTotal(a[1..], b[1..]); }
  }

  lemma {:induction false} NameLeTransitive(a: string, b: string, c: string)
    requires NameLe(a, b) && NameLe(b, c)
    ensures NameLe(a, c)
    decreases |a|
  {
    if |a| > 0 && a[0] == b[0] && b[0] == c[0] {
      NameLeTransitive(a[1..], b[1..], c[1..]);
    }
  }

  lemma {:induction false} NameLeAntisymmetric(a: string, b: string)
    requires NameLe(a, b) && NameLe(b, a)
    ensures a == b
    decreases |a|
  {
    if |a| > 0 {
      NameLeAntisymmetric(a[1..], b[1..]);
      assert a == [a[0]] + a[1..];
      assert b == [b[0]] + b[1..];
    }
  }
}
