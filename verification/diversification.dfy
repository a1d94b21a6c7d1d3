/**
 * The re-ranking step of the matcher (`apply_diversification` in
 * backend/app/scoring.py) and the ranking it is applied to. When the three
 * best qualified creators (score > 0) share one primary vertical, the first
 * later qualified creator with another primary vertical, or with none, swaps
 * places with the third and is marked as promoted.
 *
 * Entries are addressed by position. The source finds the two entries with
 * `list.index`, which returns the first value-equal entry; `IndexOfDistinct`
 * shows the two agree whenever the entries are pairwise distinct.
 */
module Diversification {
  import opened Wrappers
  import opened Schemas

  predicate Qualified(m: MatchedCreator) { m.score > 0.0 }

  /** `c.creator.verticals[0]`, when there is one. */
  function PrimaryVertical(m: MatchedCreator): Option<string> {
    if |m.creator.verticals| > 0 then Some(m.creator.verticals[0]) else None
  }

  /** The positions, from `from` on, of the qualified entries, in increasing order. */
  function QualifiedPositions(xs: seq<MatchedCreator>, from: nat): (r: seq<nat>)
    requires from <= |xs|
    ensures forall k :: 0 <= k < |r| ==> from <= r[k] < |xs| && Qualified(xs[r[k]])
    ensures forall k, l :: 0 <= k < l < |r| ==> r[k] < r[l]
    ensures forall i :: from <= i < |xs| && Qualified(xs[i]) ==> i in r
    decreases |xs| - from
  {
    if from == |xs| then []
    else if Qualified(xs[from]) then [from] + QualifiedPositions(xs, from + 1)
    else QualifiedPositions(xs, from + 1)
  }

  /** The positions of `[c for c in ranked if c.score > 0]`. */
  function Qualifying(xs: seq<MatchedCreator>): seq<nat> {
    QualifiedPositions(xs, 0)
  }

  /** The three best qualified entries all have a primary vertical, and it is the same one. */
  predicate Dominated(xs: seq<MatchedCreator>, q: seq<nat>)
    requires forall k :: 0 <= k < |q| ==> q[k] < |xs|
  {
    && |q| >= 3
    && PrimaryVertical(xs[q[0]]).Some?
    && PrimaryVertical(xs[q[1]]) == PrimaryVertical(xs[q[0]])
    && PrimaryVertical(xs[q[2]]) == PrimaryVertical(xs[q[0]])
  }

  /** The first index `k >= from` into `q` whose entry's primary vertical is not `Some(dom)`. */
  function FirstDifferent(xs: seq<MatchedCreator>, q: seq<nat>, dom: string, from: nat): (r: Option<nat>)
    requires forall k :: 0 <= k < |q| ==> q[k] < |xs|
    ensures r.Some? ==> from <= r.value < |q| && PrimaryVertical(xs[q[r.value]]) != Some(dom)
    ensures r.Some? ==> forall j :: from <= j < r.value ==> PrimaryVertical(xs[q[j]]) == Some(dom)
    ensures r.None? ==> forall j :: from <= j < |q| ==> PrimaryVertical(xs[q[j]]) == Some(dom)
    decreases |q| - from
  {
    if from >= |q| then None
    else if PrimaryVertical(xs[q[from]]) != Some(dom) then Some(from)
    else FirstDifferent(xs, q, dom, from + 1)
  }

  /** `reasons.append("Promoted for Diversity")`. */
  function Promote(m: MatchedCreator): (r: MatchedCreator)
    ensures r.creator == m.creator && r.score == m.score
    ensures r.reasons == m.reasons + {PromotedForDiversity}
  {
    m.(reasons := m.reasons + {PromotedForDiversity})
  }

  /** The entries at `third` and `cand` trade places, and the one moving up is promoted. */
  function SwapPromote(xs: seq<MatchedCreator>, third: nat, cand: nat): (r: seq<MatchedCreator>)
    requires third < cand < |xs|
    ensures |r| == |xs|
    ensures r[third] == Promote(xs[cand]) && r[cand] == xs[third]
    ensures forall i :: 0 <= i < |xs| && i != third && i != cand ==> r[i] == xs[i]
  {
    xs[third := Promote(xs[cand])][cand := xs[third]]
  }

  /**
   * The replacement the loop finds: the first qualified entry from the fourth
   * on whose primary vertical is not the dominating one, including one
   * without any vertical.
   */
  predicate IsReplacement(xs: seq<MatchedCreator>, q: seq<nat>, k: nat)
    requires forall i :: 0 <= i < |q| ==> q[i] < |xs|
  {
    && 3 <= k < |q|
    && PrimaryVertical(xs[q[k]]) != PrimaryVertical(xs[q[0]])
    && forall j :: 3 <= j < k ==> PrimaryVertical(xs[q[j]]) == PrimaryVertical(xs[q[0]])
  }

  /**
   * `apply_diversification`. With fewer than three qualified entries, or
   * without a dominating vertical, or without a replacement, the list comes
   * back as it was.
   */
  function Diversify(xs: seq<MatchedCreator>): (r: seq<MatchedCreator>)
    ensures |r| == |xs|
    ensures |Qualifying(xs)| < 3 ==> r == xs
    ensures |Qualifying(xs)| >= 3 && !Dominated(xs, Qualifying(xs)) ==> r == xs
  {
    var q := Qualifying(xs);
    if |q| < 3 || !Dominated(xs, q) then xs
    else
      var dom := PrimaryVertical(xs[q[0]]).value;
      match FirstDifferent(xs, q, dom, 3)
      case None => xs
      case Some(k) => SwapPromote(xs, q[2], q[k])
  }

  /**
   * When the list changes, the top three were dominated and the third
   * qualified entry traded places with the replacement; and whenever the top
   * three are dominated and some later qualified entry differs, it changes.
   */
  lemma DiversifyOutcome(xs: seq<MatchedCreator>)
    ensures var q := Qualifying(xs);
      Diversify(xs) != xs ==>
        (Dominated(xs, q) && exists k: nat :: IsReplacement(xs, q, k) && Diversify(xs) == SwapPromote(xs, q[2], q[k]))
    ensures var q := Qualifying(xs);
      (Dominated(xs, q) && exists k :: 3 <= k < |q| && PrimaryVertical(xs[q[k]]) != PrimaryVertical(xs[q[0]]))
      ==> Diversify(xs) != xs
  {
    var q := Qualifying(xs);
    if |q| >= 3 && Dominated(xs, q) {
      var dom := PrimaryVertical(xs[q[0]]).value;
      match FirstDifferent(xs, q, dom, 3)
      case None =>
      case Some(k) =>
        var r := SwapPromote(xs, q[2], q[k]);
        assert IsReplacement(xs, q, k);
        assert PrimaryVertical(r[q[2]]) == PrimaryVertical(xs[q[k]]);
        assert r[q[2]] != xs[q[2]];
    }
  }

  /** The (creator, score) pairs of a list, the part of an entry diversification never alters. */
  function Keys(xs: seq<MatchedCreator>): (r: seq<(Creator, real)>)
    ensures |r| == |xs|
    ensures forall i :: 0 <= i < |xs| ==> r[i] == (xs[i].creator, xs[i].score)
  {
    seq(|xs|, i requires 0 <= i < |xs| => (xs[i].creator, xs[i].score))
  }

  /** Diversification permutes the entries: the same creators with the same scores, reordered. */
  lemma DiversifyPermutes(xs: seq<MatchedCreator>)
    ensures multiset(Keys(Diversify(xs))) == multiset(Keys(xs))
  {
    var r := Diversify(xs);
    DiversifyOutcome(xs);
    if r != xs {
      var q := Qualifying(xs);
      var k: nat :| IsReplacement(xs, q, k) && r == SwapPromote(xs, q[2], q[k]);
      KeysOfSwap(xs, q[2], q[k]);
      SwapMultiset(Keys(xs), q[2], q[k]);
    }
  }

  /** Promotion leaves the keys alone, so the swap only exchanges two keys. */
  lemma KeysOfSwap(xs: seq<MatchedCreator>, t: nat, c: nat)
    requires t < c < |xs|
    ensures Keys(SwapPromote(xs, t, c)) == Keys(xs)[t := Keys(xs)[c]][c := Keys(xs)[t]]
  {
  }

  /** Exchanging two entries keeps the multiset of entries. */
  lemma SwapMultiset<T>(s: seq<T>, i: nat, j: nat)
    requires i < |s| && j < |s|
    ensures multiset(s[i := s[j]][j := s[i]]) == multiset(s)
  {
  }

  /** Only the third qualified entry and its replacement move; every other entry stays where it was. */
  lemma DiversifyMovesAtMostTwo(xs: seq<MatchedCreator>)
    ensures var r := Diversify(xs);
      forall i, j :: 0 <= i < j < |xs| && r[i] != xs[i] && r[j] != xs[j] ==>
        forall l :: 0 <= l < |xs| && l != i && l != j ==> r[l] == xs[l]
  {
    var r := Diversify(xs);
    DiversifyOutcome(xs);
    if r != xs {
      var q := Qualifying(xs);
      var k: nat :| IsReplacement(xs, q, k) && r == SwapPromote(xs, q[2], q[k]);
      ChangesWithin(xs, r, q[2], q[k]);
    }
  }

  /** Two lists that agree off positions `t` and `c` differ in at most those two places. */
  lemma ChangesWithin(xs: seq<MatchedCreator>, r: seq<MatchedCreator>, t: nat, c: nat)
    requires |r| == |xs| && t < c < |xs|
    requires forall i :: 0 <= i < |xs| && i != t && i != c ==> r[i] == xs[i]
    ensures forall i, j :: 0 <= i < j < |xs| && r[i] != xs[i] && r[j] != xs[j] ==>
      forall l :: 0 <= l < |xs| && l != i && l != j ==> r[l] == xs[l]
  {
    forall i, j, l | 0 <= i < j < |xs| && r[i] != xs[i] && r[j] != xs[j] && 0 <= l < |xs| && l != i && l != j
      ensures r[l] == xs[l]
    {
      assert i == t && j == c;
    }
  }

  lemma {:induction false} QualifiedPositionsAgree(xs: seq<MatchedCreator>, ys: seq<MatchedCreator>, from: nat)
    requires |xs| == |ys| && from <= |xs|
    requires forall i :: 0 <= i < |xs| ==> (Qualified(xs[i]) <==> Qualified(ys[i]))
    ensures QualifiedPositions(xs, from) == QualifiedPositions(ys, from)
    decreases |xs| - from
  {
    if from < |xs| {
      QualifiedPositionsAgree(xs, ys, from + 1);
    }
  }

  /** The two best qualified entries are never moved, and the qualified positions stay the same. */
  lemma DiversifyKeepsTopTwo(xs: seq<MatchedCreator>)
    ensures Qualifying(Diversify(xs)) == Qualifying(xs)
    ensures var q := Qualifying(xs);
      |q| >= 2 ==> Diversify(xs)[q[0]] == xs[q[0]] && Diversify(xs)[q[1]] == xs[q[1]]
  {
    var r := Diversify(xs);
    DiversifyOutcome(xs);
    if r != xs {
      var q := Qualifying(xs);
      var k: nat :| IsReplacement(xs, q, k) && r == SwapPromote(xs, q[2], q[k]);
      QualifiedPositionsAgree(r, xs, 0);
    }
  }

  /** Diversifying twice is diversifying once: after a swap the top three are no longer dominated. */
  lemma DiversifyIdempotent(xs: seq<MatchedCreator>)
    ensures Diversify(Diversify(xs)) == Diversify(xs)
  {
    var r := Diversify(xs);
    DiversifyOutcome(xs);
    if r != xs {
      var q := Qualifying(xs);
      var k: nat :| IsReplacement(xs, q, k) && r == SwapPromote(xs, q[2], q[k]);
      DiversifyKeepsTopTwo(xs);
      assert Qualifying(r) == q;
      assert PrimaryVertical(r[q[2]]) == PrimaryVertical(xs[q[k]]);
      assert !Dominated(r, q);
    }
  }

  /** The promoted entry keeps its creator and score and gains the promotion reason. */
  lemma PromotedEntry(xs: seq<MatchedCreator>)
    requires Diversify(xs) != xs
    ensures var q := Qualifying(xs);
      |q| >= 3 && PromotedForDiversity in Diversify(xs)[q[2]].reasons
      && Qualified(Diversify(xs)[q[2]])
      && PrimaryVertical(Diversify(xs)[q[2]]) != PrimaryVertical(xs[q[2]])
  {
    DiversifyOutcome(xs);
    var q := Qualifying(xs);
    var k: nat :| IsReplacement(xs, q, k) && Diversify(xs) == SwapPromote(xs, q[2], q[k]);
  }

  /** `list.index(x)`: the position of the first entry equal to `x`. */
  function IndexOf(xs: seq<MatchedCreator>, x: MatchedCreator): (r: nat)
    requires x in xs
    ensures r < |xs| && xs[r] == x
    ensures forall j :: 0 <= j < r ==> xs[j] != x
  {
    if xs[0] == x then 0 else 1 + IndexOf(xs[1..], x)
  }

  predicate Distinct(xs: seq<MatchedCreator>) {
    forall i, j :: 0 <= i < j < |xs| ==> xs[i] != xs[j]
  }

  /** On pairwise distinct entries `list.index` finds each entry at its own position. */
  lemma IndexOfDistinct(xs: seq<MatchedCreator>, j: nat)
    requires Distinct(xs) && j < |xs|
    ensures IndexOf(xs, xs[j]) == j
  {
  }

  /**
   * Python's `sorted(..., key=score, reverse=True)` written as an insertion
   * sort: each entry goes in front of the first entry that does not beat it.
   */
  function Insert(x: MatchedCreator, ys: seq<MatchedCreator>): (r: seq<MatchedCreator>)
    ensures multiset(r) == multiset(ys) + multiset{x}
    ensures |r| == |ys| + 1
    decreases |ys|
  {
    if ys == [] || x.score >= ys[0].score then [x] + ys
    else
      assert ys == [ys[0]] + ys[1..];
      [ys[0]] + Insert(x, ys[1..])
  }

  predicate SortedDesc(xs: seq<MatchedCreator>) {
    forall i, j :: 0 <= i < j < |xs| ==> xs[i].score >= xs[j].score
  }

  lemma {:induction false} InsertSorted(x: MatchedCreator, ys: seq<MatchedCreator>)
    requires SortedDesc(ys)
    ensures SortedDesc(Insert(x, ys))
    ensures |ys| > 0 ==> Insert(x, ys)[0].score == if x.score >= ys[0].score then x.score else ys[0].score
    decreases |ys|
  {
    if ys != [] && x.score < ys[0].score {
      InsertSorted(x, ys[1..]);
      var rest := Insert(x, ys[1..]);
      var r := Insert(x, ys);
      assert r == [ys[0]] + rest;
      if ys[1..] != [] {
        assert ys[1..][0] == ys[1];
      }
      assert rest[0].score <= ys[0].score;
      forall i, j | 0 <= i < j < |r| ensures r[i].score >= r[j].score {
        assert r[j] == rest[j - 1];
        if i > 0 {
          assert r[i] == rest[i - 1];
        } else if j > 1 {
          assert rest[0].score >= rest[j - 1].score;
        }
      }
    }
  }

  /** The ranked list: highest score first, the same entries as the input. */
  function SortDesc(xs: seq<MatchedCreator>): (r: seq<MatchedCreator>)
    ensures multiset(r) == multiset(xs)
    ensures |r| == |xs|
    decreases |xs|
  {
    if xs == [] then []
    else
      assert xs == [xs[0]] + xs[1..];
      Insert(xs[0], SortDesc(xs[1..]))
  }

  lemma {:induction false} SortDescSorted(xs: seq<MatchedCreator>)
    ensures SortedDesc(SortDesc(xs))
    decreases |xs|
  {
    if xs != [] {
      SortDescSorted(xs[1..]);
      InsertSorted(xs[0], SortDesc(xs[1..]));
    }
  }

  /** The second match endpoint: score every creator, rank by score, then diversify. */
  function RankAndDiversify(scored: seq<MatchedCreator>): (r: seq<MatchedCreator>)
    ensures |r| == |scored|
  {
    Diversify(SortDesc(scored))
  }

  /** In a ranked list of non-negative scores the qualified entries come first. */
  lemma {:induction false} SortedQualifiedPrefix(xs: seq<MatchedCreator>, from: nat)
    requires SortedDesc(xs) && from <= |xs|
    requires forall i :: 0 <= i < |xs| ==> xs[i].score >= 0.0
    ensures forall k :: 0 <= k < |QualifiedPositions(xs, from)| ==> QualifiedPositions(xs, from)[k] == from + k
    decreases |xs| - from
  {
    if from < |xs| {
      SortedQualifiedPrefix(xs, from + 1);
      if !Qualified(xs[from]) {
        assert forall i :: from <= i < |xs| ==> !Qualified(xs[i]);
      }
    }
  }

  /**
   * After ranking, a diversification swap always replaces the entry in third
   * place, and the top two places are kept.
   */
  lemma RankedSwapAtThirdPlace(scored: seq<MatchedCreator>)
    requires forall i :: 0 <= i < |scored| ==> scored[i].score >= 0.0
    ensures var ranked := SortDesc(scored);
      var r := RankAndDiversify(scored);
      r != ranked ==>
        (r[2] != ranked[2] && r[0] == ranked[0] && r[1] == ranked[1] && PromotedForDiversity in r[2].reasons)
  {
    var ranked := SortDesc(scored);
    SortDescSorted(scored);
    assert forall i :: 0 <= i < |ranked| ==> ranked[i].score >= 0.0 by {
      forall i | 0 <= i < |ranked| ensures ranked[i].score >= 0.0 {
        assert ranked[i] in multiset(scored);
      }
    }
    SortedQualifiedPrefix(ranked, 0);
    var r := Diversify(ranked);
    if r != ranked {
      PromotedEntry(ranked);
      DiversifyKeepsTopTwo(ranked);
    }
  }
}
