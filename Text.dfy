/** String helpers the list filter relies on: lower-casing and substring search.
    Lower-casing is modelled as ASCII lowering; Unicode case mapping is not. */
module Text {

  /** Lower-cases one character: 'A'..'Z' map to 'a'..'z', every other character is kept. */
  function LowerChar(c: char): (l: char)
    ensures 'A' <= c <= 'Z' ==> l as int == c as int + 32
    ensures !('A' <= c <= 'Z') ==> l == c
    ensures !('A' <= l <= 'Z')
  {
    if 'A' <= c <= 'Z' then (c as int - 'A' as int + 'a' as int) as char else c
  }

  /** `s.toLowerCase()`: the same length, each character lowered. */
  function Lower(s: string): (r: string)
    ensures |r| == |s|
    ensures forall i :: 0 <= i < |s| ==> r[i] == LowerChar(s[i])
  {
    if s == [] then [] else [LowerChar(s[0])] + Lower(s[1..])
  }

  /** Lowering twice is lowering once. */
  lemma LowerIdempotent(s: string)
    ensures Lower(Lower(s)) == Lower(s)
  {
    var l := Lower(s);
    assert forall i :: 0 <= i < |l| ==> Lower(l)[i] == l[i];
  }

  /** `q` occurs in `s` starting at index `i`. */
  ghost predicate OccursAt(s: string, q: string, i: int)
  {
    0 <= i && i + |q| <= |s| && s[i..i + |q|] == q
  }

  lemma OccursInTail(s: string, q: string)
    requires |s| > 0
    ensures forall i :: 0 <= i ==> (OccursAt(s[1..], q, i) <==> OccursAt(s, q, i + 1))
  {
    forall i | 0 <= i
      ensures OccursAt(s[1..], q, i) <==> OccursAt(s, q, i + 1)
    {
      if 0 <= i && i + |q| <= |s| - 1 {
        assert s[1..][i..i + |q|] == s[i + 1..i + 1 + |q|];
      }
    }
  }

  /** `s.includes(q)`: whether `q` is a contiguous part of `s` (the empty string is part of every string). */
  function Includes(s: string, q: string): (r: bool)
    ensures r <==> exists i :: OccursAt(s, q, i)
    decreases |s|
  {
    if |q| > |s| then false
    else if q == s[..|q|] then (assert OccursAt(s, q, 0); true)
    else
      OccursInTail(s, q);
      assert !OccursAt(s, q, 0);
      assert forall i :: OccursAt(s, q, i) ==> OccursAt(s[1..], q, i - 1);
      Includes(s[1..], q)
  }
}
