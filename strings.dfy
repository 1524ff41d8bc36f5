/** Texts assembled from parts, as an f-string assembles literal pieces and fields. */
module Strings {

  /** The parts, one after another. */
  function Concat(parts: seq<string>): string
  {
    if parts == [] then "" else Concat(parts[..|parts| - 1]) + parts[|parts| - 1]
  }

  /** `part` occurs in `s` starting at index i. */
  predicate IsInfixAt(s: string, part: string, i: int)
  {
    0 <= i && i + |part| <= |s| && s[i..i + |part|] == part
  }

  predicate Contains(s: string, part: string)
  {
    exists i | 0 <= i <= |s| :: IsInfixAt(s, part, i)
  }

  /** Each part of a concatenation occurs in it, right after the parts before it. */
  lemma {:induction false} ConcatInfix(parts: seq<string>, k: int)
    requires 0 <= k < |parts|
    ensures IsInfixAt(Concat(parts), parts[k], |Concat(parts[..k])|)
    ensures Contains(Concat(parts), parts[k])
  {
    var n := |parts|;
    var init := parts[..n - 1];
    assert Concat(parts) == Concat(init) + parts[n - 1];
    if k == n - 1 {
      assert init == parts[..k];
    } else {
      ConcatInfix(init, k);
      assert init[k] == parts[k] && init[..k] == parts[..k];
      var i := |Concat(parts[..k])|;
      assert Concat(parts)[i..i + |parts[k]|] == Concat(init)[i..i + |parts[k]|];
    }
    assert IsInfixAt(Concat(parts), parts[k], |Concat(parts[..k])|);
  }

  /** The last part of a concatenation ends it. */
  lemma ConcatEndsWithLast(parts: seq<string>)
    requires parts != []
    ensures IsInfixAt(Concat(parts), parts[|parts| - 1], |Concat(parts)| - |parts[|parts| - 1]|)
  {
    ConcatInfix(parts, |parts| - 1);
  }

  /** A part placed between two texts occurs right after the first. */
  lemma InfixOfConcat(a: string, part: string, b: string)
    ensures IsInfixAt(a + part + b, part, |a|)
  {
    assert (a + part + b)[|a|..|a| + |part|] == part;
  }
}
