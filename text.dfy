/** Substring facts about strings, used to state what a composed prompt contains. */
module Text {

  /** `sub` occurs in `s` starting at offset `i`. */
  predicate OccursAt(sub: string, s: string, i: int)
  {
    0 <= i && i + |sub| <= |s| && s[i..i + |sub|] == sub
  }

  /** `sub` occurs somewhere in `s`. */
  predicate Contains(s: string, sub: string)
  {
    exists i :: 0 <= i <= |s| && OccursAt(sub, s, i)
  }

  lemma OccursInLeft(sub: string, s: string, t: string, i: int)
    requires OccursAt(sub, s, i)
    ensures OccursAt(sub, s + t, i)
  {
    assert (s + t)[i..i + |sub|] == s[i..i + |sub|];
  }

  lemma OccursInRight(sub: string, s: string, t: string, i: int)
    requires OccursAt(sub, t, i)
    ensures OccursAt(sub, s + t, |s| + i)
  {
    assert (s + t)[|s| + i..|s| + i + |sub|] == t[i..i + |sub|];
  }

  /** Whatever a string contains, every extension of it on either side contains too. */
  lemma ContainsInConcat(s: string, t: string, sub: string)
    ensures Contains(s, sub) ==> Contains(s + t, sub)
    ensures Contains(t, sub) ==> Contains(s + t, sub)
  {
    if Contains(s, sub) {
      var i :| OccursAt(sub, s, i);
      OccursInLeft(sub, s, t, i);
    }
    if Contains(t, sub) {
      var i :| OccursAt(sub, t, i);
      OccursInRight(sub, s, t, i);
    }
  }

  /** The pieces of a template laid end to end. */
  function Concat(pieces: seq<string>): string
  {
    if |pieces| == 0 then "" else pieces[0] + Concat(pieces[1..])
  }

  /** Every piece of a template occurs in the template. */
  lemma {:induction false} ConcatContainsPieces(pieces: seq<string>)
    ensures forall p :: p in pieces ==> Contains(Concat(pieces), p)
  {
    if |pieces| > 0 {
      var rest := pieces[1..];
      ConcatContainsPieces(rest);
      assert Concat(pieces) == pieces[0] + Concat(rest);
      forall p | p in pieces
        ensures Contains(Concat(pieces), p)
      {
        if p == pieces[0] {
          assert OccursAt(p, p, 0);
        } else {
          assert p in rest;
        }
        ContainsInConcat(pieces[0], Concat(rest), p);
      }
    }
  }
}
