/**
 What reciprocal-rank fusion means for the order of recalled memories: a memory that every channel ranks at least as
 well as another, and one channel better, comes before it.
 */
module RecallOrder {
  import opened Wrappers
  import opened Order
  import opened MemoryModel
  import opened MemoryShape
  import opened RecallSearch
  import opened RecallValidate
  import opened Recall

  // ---- weights ------------------------------------------------------------------------------------

  /** A rank is worth the reciprocal of itself plus the constant; no rank is worth nothing. */
  lemma WeightMeans(k: real, rank: int)
    requires k > 0.0
    ensures rank > 0 ==> Reciprocal(k)(rank) * (k + rank as real) == 1.0 && Reciprocal(k)(rank) > 0.0
    ensures rank <= 0 ==> Reciprocal(k)(rank) == 0.0
  {
    if rank > 0 {
      Reciprocals(k + rank as real);
    }
  }

  lemma Reciprocals(x: real)
    requires x > 0.0
    ensures (1.0 / x) * x == 1.0 && 1.0 / x > 0.0
  {
  }

  lemma Scales(a: real, x: real, y: real)
    requires a > 0.0 && x < y
    ensures a * x < a * y
  {
  }

  lemma Shrinks(a: real, b: real, x: real)
    requires x > 0.0 && b * x < a * x
    ensures b < a
  {
  }

  /** A better rank is worth more. */
  lemma WeightFalls(k: real, q: int, r: int)
    requires k > 0.0 && 0 < q < r
    ensures Reciprocal(k)(q) > Reciprocal(k)(r)
  {
    SmallerReciprocal(k + q as real, k + r as real);
  }

  lemma SmallerReciprocal(x: real, y: real)
    requires 0.0 < x < y
    ensures 1.0 / x > 1.0 / y
  {
    Reciprocals(x);
    Reciprocals(y);
    Scales(1.0 / y, x, y);
    Shrinks(1.0 / x, 1.0 / y, x);
  }

  // ---- ranks --------------------------------------------------------------------------------------

  /** A channel as the store returns it: every memory once, with positive ranks. */
  predicate WellRanked(cs: seq<Found>) {
    DistinctIDs(cs) && forall i :: 0 <= i < |cs| ==> cs[i].rank > 0
  }

  /** The channel found the memory at this rank. */
  ghost predicate FoundAt(cs: seq<Found>, id: string, rank: int) {
    exists i :: 0 <= i < |cs| && cs[i].memory.id == id && cs[i].rank == rank
  }

  ghost predicate IsFound(cs: seq<Found>, id: string) {
    exists i :: 0 <= i < |cs| && cs[i].memory.id == id
  }

  /** Where the channel found n, it found m too, no worse. */
  ghost predicate NoWorse(cs: seq<Found>, m: string, n: string) {
    forall r :: FoundAt(cs, n, r) ==> exists q :: q <= r && FoundAt(cs, m, q)
  }

  /** The channel found m, and n not at all or worse. */
  ghost predicate Better(cs: seq<Found>, m: string, n: string) {
    IsFound(cs, m) && forall q, r :: FoundAt(cs, m, q) && FoundAt(cs, n, r) ==> q < r
  }

  // ---- scores -------------------------------------------------------------------------------------

  lemma {:induction false} ScoreConcat(a: seq<Found>, b: seq<Found>, id: string, w: Weight)
    ensures ScoreIn(a + b, id, w) == ScoreIn(a, id, w) + ScoreIn(b, id, w)
  {
    if b == [] {
      assert a + b == a;
    } else {
      var n := |b| - 1;
      assert a + b == (a + b[..n]) + [b[n]] && b == b[..n] + [b[n]];
      ScoreSnoc(a + b[..n], b[n], id, w);
      ScoreSnoc(b[..n], b[n], id, w);
      ScoreConcat(a, b[..n], id, w);
    }
  }

  lemma ScoreOf(cs: seq<Found>, id: string, w: Weight, i: nat)
    requires DistinctIDs(cs) && i < |cs| && cs[i].memory.id == id
    ensures ScoreIn(cs, id, w) == w(cs[i].rank)
  {
    var before, after := cs[..i], cs[i + 1..];
    assert cs == (before + [cs[i]]) + after;
    ScoreConcat(before + [cs[i]], after, id, w);
    ScoreSnoc(before, cs[i], id, w);
    AbsentScore(before, id, w);
    AbsentScore(after, id, w);
  }

  lemma ChannelScore(cs: seq<Found>, id: string, k: real)
    requires k > 0.0 && WellRanked(cs)
    ensures forall r :: FoundAt(cs, id, r) ==> r > 0 && ScoreIn(cs, id, Reciprocal(k)) == Reciprocal(k)(r)
    ensures !IsFound(cs, id) ==> ScoreIn(cs, id, Reciprocal(k)) == 0.0
  {
    forall r | FoundAt(cs, id, r) ensures r > 0 && ScoreIn(cs, id, Reciprocal(k)) == Reciprocal(k)(r) {
      var i :| 0 <= i < |cs| && cs[i].memory.id == id && cs[i].rank == r;
      ScoreOf(cs, id, Reciprocal(k), i);
    }
    if !IsFound(cs, id) {
      AbsentScore(cs, id, Reciprocal(k));
    }
  }

  lemma ChannelCompares(cs: seq<Found>, m: string, n: string, k: real)
    requires k > 0.0 && WellRanked(cs) && NoWorse(cs, m, n)
    ensures ScoreIn(cs, m, Reciprocal(k)) >= ScoreIn(cs, n, Reciprocal(k))
    ensures Better(cs, m, n) ==> ScoreIn(cs, m, Reciprocal(k)) > ScoreIn(cs, n, Reciprocal(k))
  {
    ChannelScore(cs, m, k);
    ChannelScore(cs, n, k);
    if IsFound(cs, n) {
      var j :| 0 <= j < |cs| && cs[j].memory.id == n;
      var r := cs[j].rank;
      assert FoundAt(cs, n, r);
      var q :| q <= r && FoundAt(cs, m, q);
      if q < r {
        WeightFalls(k, q, r);
      }
    } else if IsFound(cs, m) {
      var i :| 0 <= i < |cs| && cs[i].memory.id == m;
      assert FoundAt(cs, m, cs[i].rank);
      WeightMeans(k, cs[i].rank);
    }
  }

  // ---- order --------------------------------------------------------------------------------------

  ghost predicate AllWellRanked(found: CandidateSet) {
    WellRanked(found.exact) && WellRanked(found.fullText) && WellRanked(found.vector)
  }

  /** Every channel that found n found m no worse, and some channel found m better. */
  ghost predicate Dominates(found: CandidateSet, m: string, n: string) {
    && NoWorse(found.exact, m, n) && NoWorse(found.fullText, m, n) && NoWorse(found.vector, m, n)
    && (Better(found.exact, m, n) || Better(found.fullText, m, n) || Better(found.vector, m, n))
  }

  lemma DominatingScore(found: CandidateSet, m: string, n: string, k: real)
    requires k > 0.0 && AllWellRanked(found) && Dominates(found, m, n)
    ensures ScoreIn(Everything(found), m, Reciprocal(k)) > ScoreIn(Everything(found), n, Reciprocal(k))
  {
    ChannelCompares(found.exact, m, n, k);
    ChannelCompares(found.fullText, m, n, k);
    ChannelCompares(found.vector, m, n, k);
    forall id ensures ScoreIn(Everything(found), id, Reciprocal(k)) ==
                      ScoreIn(found.exact, id, Reciprocal(k)) + ScoreIn(found.fullText, id, Reciprocal(k))
                      + ScoreIn(found.vector, id, Reciprocal(k)) {
      ScoreConcat(found.exact + found.fullText, found.vector, id, Reciprocal(k));
      ScoreConcat(found.exact, found.fullText, id, Reciprocal(k));
    }
  }

  /** In the fused list a memory comes before every memory it dominates. */
  lemma DominatingComesFirst(found: CandidateSet, k: real, xs: seq<Scored>, i: nat, j: nat)
    requires k > 0.0 && AllWellRanked(found) && Fuses(xs, Everything(found), Reciprocal(k))
    requires i < |xs| && j < |xs| && Dominates(found, xs[i].memory.id, xs[j].memory.id)
    ensures i < j
  {
    DominatingScore(found, xs[i].memory.id, xs[j].memory.id, k);
  }

  /** In the fused list higher scores come first, then more important memories, later updates, smaller IDs. */
  lemma FusedInOrder(xs: seq<Scored>, cs: seq<Found>, w: Weight, i: nat, j: nat)
    requires Fuses(xs, cs, w) && i < j < |xs|
    ensures var x, y := xs[i], xs[j];
            && x.score >= y.score
            && (x.score == y.score ==>
                  && x.memory.importance >= y.memory.importance
                  && (x.memory.importance == y.memory.importance ==>
                        && x.memory.updatedAt >= y.memory.updatedAt
                        && (x.memory.updatedAt == y.memory.updatedAt ==> Less(x.memory.id, y.memory.id))))
  {
    assert !Before(xs[j], xs[i]) && xs[i].memory.id != xs[j].memory.id;
    LessTotal(xs[i].memory.id, xs[j].memory.id);
  }

  /** The channel ranks its memories 1, 2, 3 and so on. */
  predicate Counts(cs: seq<Found>) {
    DistinctIDs(cs) && forall i :: 0 <= i < |cs| ==> cs[i].rank == i + 1
  }

  predicate AllCount(found: CandidateSet) {
    Counts(found.exact) && Counts(found.fullText) && Counts(found.vector)
  }

  /** The memory is first in the channel, if the channel found anything. */
  predicate Leads(cs: seq<Found>, id: string) {
    cs != [] ==> cs[0].memory.id == id
  }

  predicate LeadsAll(found: CandidateSet, id: string) {
    Leads(found.exact, id) && Leads(found.fullText, id) && Leads(found.vector, id)
  }

  lemma LeaderBetter(cs: seq<Found>, m: string, n: string)
    requires Counts(cs) && Leads(cs, m) && m != n
    ensures NoWorse(cs, m, n) && (cs != [] ==> Better(cs, m, n))
  {
    if cs != [] {
      assert FoundAt(cs, m, 1);
    }
  }

  /** A memory that is first in every channel that found anything is first in the fused list. */
  lemma LeaderComesFirst(found: CandidateSet, k: real, xs: seq<Scored>, m: string)
    requires k > 0.0 && AllCount(found) && Fuses(xs, Everything(found), Reciprocal(k))
    requires LeadsAll(found, m) && Everything(found) != []
    ensures xs != [] && xs[0].memory.id == m
  {
    var cs := Everything(found);
    assert cs[0].memory.id == m;
    assert Holds(xs, m);
    var i :| 0 <= i < |xs| && xs[i].memory.id == m;
    if i > 0 {
      var n := xs[0].memory.id;
      LeaderBetter(found.exact, m, n);
      LeaderBetter(found.fullText, m, n);
      LeaderBetter(found.vector, m, n);
      DominatingComesFirst(found, k, xs, i, 0);
    }
  }

  /** The store's channels rank their memories 1, 2, 3 and so on, each memory once. */
  lemma SearchCounts(e: Engine, s: State, q: Query)
    requires e.Valid() && AllShaped(s.memories) && AllSourcesNamed(s) && Search(e, s, q).Ok?
    ensures AllCount(Search(e, s, q).value)
  {
    StoreResultAccepted(e, s, q);
  }

  /** Of two packed memories the one that dominates the other comes first. */
  lemma PackedByRank(found: CandidateSet, k: real, fused: seq<Scored>, cost: Cost, slots: nat, tokens: nat,
                     items: seq<Scored>, i: nat, j: nat)
    requires k > 0.0 && AllCount(found) && Fuses(fused, Everything(found), Reciprocal(k))
    requires Pack(fused, cost, slots, tokens) == Some(items)
    requires i < |items| && j < |items| && Dominates(found, items[i].memory.id, items[j].memory.id)
    ensures i < j
  {
    PackFits(fused, cost, slots, tokens);
    SubsequenceKeeps(items, fused);
    SubsequenceIn(items, fused);
    assert items[i] in items && items[j] in items;
    ItemScore(found, k, fused, items[i]);
    ItemScore(found, k, fused, items[j]);
    DominatingScore(found, items[i].memory.id, items[j].memory.id, k);
  }

  /** Recall over the reference store: the memory that the channels rank better comes first. */
  lemma RecalledByRank(e: Engine, s: State, p: Policy, q: Query, fused: seq<Scored>, cost: Cost, items: seq<Scored>,
                       i: nat, j: nat)
    requires e.Valid() && p.Valid() && AllShaped(s.memories) && AllSourcesNamed(s)
    requires Asks(q) && Fused(e, s, p, q, fused) && Pack(fused, cost, p.maxItems, p.maxTokens) == Some(items)
    requires i < |items| && j < |items|
    requires Dominates(Search(e, s, q).value, items[i].memory.id, items[j].memory.id)
    ensures i < j
  {
    SearchCounts(e, s, q);
    PackedByRank(Search(e, s, q).value, p.k, fused, cost, p.maxItems, p.maxTokens, items, i, j);
  }

  /** A memory that leads every channel is recalled first, if it fits the token budget. */
  lemma LeaderRecalledFirst(e: Engine, s: State, p: Policy, q: Query, fused: seq<Scored>, cost: Cost,
                            items: seq<Scored>, m: string)
    requires e.Valid() && p.Valid() && AllShaped(s.memories) && AllSourcesNamed(s)
    requires Asks(q) && Fused(e, s, p, q, fused) && Pack(fused, cost, p.maxItems, p.maxTokens) == Some(items)
    requires LeadsAll(Search(e, s, q).value, m) && Everything(Search(e, s, q).value) != []
    ensures fused != [] && fused[0].memory.id == m
    ensures 0 <= cost(fused[0]) <= p.maxTokens ==> items != [] && items[0].memory.id == m
  {
    SearchCounts(e, s, q);
    LeaderComesFirst(Search(e, s, q).value, p.k, fused, m);
  }

  lemma ItemScore(found: CandidateSet, k: real, fused: seq<Scored>, x: Scored)
    requires k > 0.0 && Fuses(fused, Everything(found), Reciprocal(k)) && x in fused
    ensures x.score == ScoreIn(Everything(found), x.memory.id, Reciprocal(k))
  {
    var i :| 0 <= i < |fused| && fused[i] == x;
    assert Stems(fused[i], Everything(found));
  }
}
