/** Category sampling by repeated draw-and-remove from a working copy of the
    list (src/App.js, the loop at the start of `generateIdeas`). The random
    draws `Math.floor(Math.random() * copy.length)` are an oracle: `picks[i]` is
    the index drawn in round `i`, below the copy's length at that round. */
module Sampler {
  import opened Seqs
  import Categories

  /** Each pick is a valid index into the copy as it stands when it is used. */
  predicate ValidPicks(poolSize: nat, picks: seq<nat>)
  {
    |picks| <= poolSize && forall j :: 0 <= j < |picks| ==> picks[j] < poolSize - j
  }

  /** The drawn entries, in draw order, and what is left of the working copy. */
  datatype Draw<T> = Draw(selected: seq<T>, remaining: seq<T>)

  /** Reference definition of draw-and-remove: take `pool[picks[0]]`, splice it
      out, and continue with the rest of the picks on what remains. */
  function DrawAndRemove<T>(pool: seq<T>, picks: seq<nat>): (r: Draw<T>)
    requires ValidPicks(|pool|, picks)
    ensures |r.selected| == |picks|
    ensures |r.remaining| == |pool| - |picks|
    decreases |picks|
  {
    if picks == [] then Draw([], pool)
    else
      var rest := DrawAndRemove(RemoveAt(pool, picks[0]), picks[1..]);
      Draw([pool[picks[0]]] + rest.selected, rest.remaining)
  }

  /** What is drawn and what remains are together a permutation of the pool. */
  lemma {:induction false} DrawIsPermutation<T>(pool: seq<T>, picks: seq<nat>)
    requires ValidPicks(|pool|, picks)
    ensures multiset(DrawAndRemove(pool, picks).selected) + multiset(DrawAndRemove(pool, picks).remaining)
            == multiset(pool)
    decreases |picks|
  {
    if picks != [] {
      var next := RemoveAt(pool, picks[0]);
      RemoveAtMultiset(pool, picks[0]);
      DrawIsPermutation(next, picks[1..]);
      var rest := DrawAndRemove(next, picks[1..]);
      assert multiset([pool[picks[0]]] + rest.selected) == multiset{pool[picks[0]]} + multiset(rest.selected);
    }
  }

  /** Drawing from a list without repeats yields entries of that list, none
      twice, and none also left behind. */
  lemma DrawPartitions<T>(pool: seq<T>, picks: seq<nat>)
    requires ValidPicks(|pool|, picks)
    requires Distinct(pool)
    ensures Distinct(DrawAndRemove(pool, picks).selected + DrawAndRemove(pool, picks).remaining)
    ensures Distinct(DrawAndRemove(pool, picks).selected)
    ensures forall x :: x in DrawAndRemove(pool, picks).selected ==> x in pool
    ensures forall x :: x in DrawAndRemove(pool, picks).selected ==> x !in DrawAndRemove(pool, picks).remaining
  {
    var d := DrawAndRemove(pool, picks);
    DrawIsPermutation(pool, picks);
    assert multiset(d.selected + d.remaining) == multiset(pool);
    DistinctByMultiset(pool, d.selected + d.remaining);
    DistinctSplit(d.selected, d.remaining);
    forall x | x in d.selected ensures x in pool {
      assert x in multiset(d.selected);
      assert x in multiset(pool);
    }
  }

  /** One round of draw-and-remove, unfolded. */
  lemma DrawStep<T>(pool: seq<T>, picks: seq<nat>)
    requires ValidPicks(|pool|, picks)
    requires picks != []
    ensures ValidPicks(|pool| - 1, picks[1..])
    ensures DrawAndRemove(pool, picks)
            == Draw([pool[picks[0]]] + DrawAndRemove(RemoveAt(pool, picks[0]), picks[1..]).selected,
                    DrawAndRemove(RemoveAt(pool, picks[0]), picks[1..]).remaining)
  {
  }

  /** The draw-and-remove loop: one round per pick, each appending the drawn
      entry and splicing it out of the working copy. */
  method DrawRounds<T>(pool: seq<T>, picks: seq<nat>) returns (selected: seq<T>, remaining: seq<T>)
    requires ValidPicks(|pool|, picks)
    ensures Draw(selected, remaining) == DrawAndRemove(pool, picks)
  {
    selected := [];
    remaining := pool;
    for i := 0 to |picks|
      invariant |remaining| == |pool| - i
      invariant ValidPicks(|remaining|, picks[i..])
      invariant DrawAndRemove(pool, picks)
        == Draw(selected + DrawAndRemove(remaining, picks[i..]).selected,
                DrawAndRemove(remaining, picks[i..]).remaining)
    {
      var k := picks[i];
      assert picks[i..][1..] == picks[i + 1..];
      DrawStep(remaining, picks[i..]);
      var d := DrawAndRemove(RemoveAt(remaining, k), picks[i + 1..]);
      assert selected + ([remaining[k]] + d.selected) == (selected + [remaining[k]]) + d.selected;
      selected := selected + [remaining[k]];
      remaining := RemoveAt(remaining, k);
    }
  }

  /** The generator's sampling step: three rounds over a copy of the category
      list. The result is three distinct categories, the copy keeps the other
      seventeen, and the two together are a permutation of the list. */
  method SampleCategories(picks: seq<nat>) returns (selected: seq<Categories.Category>, remaining: seq<Categories.Category>)
    requires |picks| == Categories.SampleSize
    requires ValidPicks(|Categories.All|, picks)
    ensures Draw(selected, remaining) == DrawAndRemove(Categories.All, picks)
    ensures |selected| == 3 && |remaining| == 17
    ensures Distinct(selected)
    ensures forall c :: c in selected ==> c !in remaining
    ensures multiset(selected) + multiset(remaining) == multiset(Categories.All)
  {
    selected, remaining := DrawRounds(Categories.All, picks);
    Categories.CategoriesDistinct();
    DrawPartitions(Categories.All, picks);
    DrawIsPermutation(Categories.All, picks);
  }
}
