/**
 What the store's search finds, said without its ratings: each channel lists exactly the wanted memories that match
 it, best first, as far as its limit goes.
 */
module RecallMeaning {
  import opened Wrappers
  import opened Order
  import opened MemoryTypes
  import opened MemoryModel
  import opened SearchTerms
  import opened RecallSearch
  import opened RecallValidate

  /** A memory the query may find: active and effective now, in its scope, of a wanted kind. */
  predicate Wanted(q: Query, m: Memory) {
    && m.scope == q.scope && m.status == Active && m.validFrom <= q.now
    && (m.validUntil == ZERO_TIME || q.now < m.validUntil) && (q.kinds == [] || m.kind in q.kinds)
  }

  /** Higher score, then more important, then updated later, then the smaller ID. */
  predicate Outranks(score: Memory -> real, a: Memory, b: Memory) {
    || score(a) > score(b)
    || (score(a) == score(b) && a.importance > b.importance)
    || (score(a) == score(b) && a.importance == b.importance && a.updatedAt > b.updatedAt)
    || (score(a) == score(b) && a.importance == b.importance && a.updatedAt == b.updatedAt && Less(a.id, b.id))
  }

  ghost predicate Listed(cs: seq<Found>, m: Memory) {
    exists i :: 0 <= i < |cs| && cs[i].memory == m
  }

  /** Every stored, wanted and matching memory is listed, or the list is full of memories that outrank it. */
  ghost predicate Complete(s: State, q: Query, cs: seq<Found>, limit: int, matches: Memory -> bool,
                           score: Memory -> real) {
    forall id :: id in s.memories && Wanted(q, s.memories[id]) && matches(s.memories[id]) ==>
      || Listed(cs, s.memories[id])
      || (|cs| == limit && forall i :: 0 <= i < |cs| ==> Outranks(score, cs[i].memory, s.memories[id]))
  }

  /** Everything listed is a stored, wanted and matching memory with its sources, and the list is in order. */
  ghost predicate Correct(s: State, q: Query, cs: seq<Found>, limit: int, channel: Channel, matches: Memory -> bool,
                          score: Memory -> real) {
    && |cs| <= limit
    && (forall i :: 0 <= i < |cs| ==>
          && cs[i].memory.id in s.memories && s.memories[cs[i].memory.id] == cs[i].memory
          && cs[i].sources == (if cs[i].memory.id in s.sources then s.sources[cs[i].memory.id] else [])
          && Wanted(q, cs[i].memory) && matches(cs[i].memory)
          && cs[i].channel == channel && cs[i].rank == i + 1
          && cs[i].similarity == if channel == Vector then score(cs[i].memory) else 0.0)
    && forall i, j :: 0 <= i < j < |cs| ==> Outranks(score, cs[i].memory, cs[j].memory)
  }

  /** What a channel selected: exactly the wanted and matching memories, with their scores. */
  ghost predicate Gathers(s: State, q: Query, xs: seq<Scored>, matches: Memory -> bool, score: Memory -> real) {
    && Identified(xs)
    && (forall x :: x in xs ==>
          && x.memory.id in s.memories && s.memories[x.memory.id] == x.memory && Wanted(q, x.memory)
          && matches(x.memory) && x == Scored(score(x.memory), x.memory, SourcesOf(s, x.memory.id)))
    && (forall id :: id in s.memories && Wanted(q, s.memories[id]) && matches(s.memories[id]) ==>
          Scored(score(s.memories[id]), s.memories[id], SourcesOf(s, id)) in xs)
  }

  lemma SortedOutranks(ys: seq<Scored>, score: Memory -> real, i: nat, j: nat)
    requires Sorted(Before, ys) && Identified(ys) && i < j < |ys|
    requires ys[i].score == score(ys[i].memory) && ys[j].score == score(ys[j].memory)
    ensures Outranks(score, ys[i].memory, ys[j].memory)
  {
    assert !Before(ys[j], ys[i]);
    LessTotal(ys[i].memory.id, ys[j].memory.id);
  }

  /** A gathered selection in order. */
  ghost predicate InOrder(ys: seq<Scored>, score: Memory -> real) {
    forall i, j :: 0 <= i < j < |ys| ==> Outranks(score, ys[i].memory, ys[j].memory)
  }

  lemma SortGathers(s: State, q: Query, xs: seq<Scored>, matches: Memory -> bool, score: Memory -> real)
    requires Gathers(s, q, xs, matches, score)
    ensures Gathers(s, q, Sort(Before, xs), matches, score) && InOrder(Sort(Before, xs), score)
  {
    SortedEntries(xs);
    var ys := Sort(Before, xs);
    forall i, j | 0 <= i < j < |ys| ensures Outranks(score, ys[i].memory, ys[j].memory) {
      assert ys[i] in xs && ys[j] in xs;
      SortedOutranks(ys, score, i, j);
    }
  }

  lemma CutCorrect(s: State, q: Query, ys: seq<Scored>, limit: int, channel: Channel, matches: Memory -> bool,
                   score: Memory -> real)
    requires 0 <= limit && Gathers(s, q, ys, matches, score) && InOrder(ys, score)
    ensures Correct(s, q, Ranked(ys, limit, channel), limit, channel, matches, score)
  {
    forall i | 0 <= i < |ys| ensures ys[i] in ys {
    }
  }

  lemma CutComplete(s: State, q: Query, ys: seq<Scored>, limit: int, channel: Channel, matches: Memory -> bool,
                    score: Memory -> real)
    requires 0 <= limit && Gathers(s, q, ys, matches, score) && InOrder(ys, score)
    ensures Complete(s, q, Ranked(ys, limit, channel), limit, matches, score)
  {
    var cs := Ranked(ys, limit, channel);
    forall id | id in s.memories && Wanted(q, s.memories[id]) && matches(s.memories[id])
      ensures Listed(cs, s.memories[id]) ||
              (|cs| == limit && forall i :: 0 <= i < |cs| ==> Outranks(score, cs[i].memory, s.memories[id]))
    {
      var x := Scored(score(s.memories[id]), s.memories[id], SourcesOf(s, id));
      assert x in ys;
      var k :| 0 <= k < |ys| && ys[k] == x;
      if k < |cs| {
        assert cs[k].memory == s.memories[id];
      }
    }
  }

  /** Sorting and cutting a gathered selection gives a correct and complete channel. */
  lemma RankedMeans(s: State, q: Query, xs: seq<Scored>, limit: int, channel: Channel, matches: Memory -> bool,
                    score: Memory -> real)
    requires 0 <= limit && Gathers(s, q, xs, matches, score)
    ensures var cs := Ranked(Sort(Before, xs), limit, channel);
            Correct(s, q, cs, limit, channel, matches, score) && Complete(s, q, cs, limit, matches, score)
  {
    SortGathers(s, q, xs, matches, score);
    CutCorrect(s, q, Sort(Before, xs), limit, channel, matches, score);
    CutComplete(s, q, Sort(Before, xs), limit, channel, matches, score);
  }

  // ---- selections ---------------------------------------------------------------------------------

  /** A rating that rates exactly the matching memories, by their score. */
  ghost predicate Rates(rate: Rating, matches: Memory -> bool, score: Memory -> real) {
    forall m :: rate(m) == if matches(m) then Some(score(m)) else None
  }

  lemma SelectedGathers(s: State, q: Query, rate: Rating, ids: seq<string>, matches: Memory -> bool,
                        score: Memory -> real)
    requires (forall id :: id in s.memories ==> s.memories[id].id == id) && Rates(rate, matches, score)
    requires Unique(ids) && forall id :: id in s.memories ==> id in ids
    ensures Gathers(s, q, Selected(s, q, rate, ids), matches, score)
  {
    var xs := Selected(s, q, rate, ids);
    SelectedIs(s, q, rate, ids);
    forall x | x in xs
      ensures && x.memory.id in s.memories && s.memories[x.memory.id] == x.memory && Wanted(q, x.memory)
              && matches(x.memory) && x == Scored(score(x.memory), x.memory, SourcesOf(s, x.memory.id))
    {
      PickedMeans(s, q, rate, x);
    }
    forall id | id in s.memories && Wanted(q, s.memories[id]) && matches(s.memories[id])
      ensures Scored(score(s.memories[id]), s.memories[id], SourcesOf(s, id)) in xs
    {
      PickedIsSelected(s, q, rate, ids, id);
      assert rate(s.memories[id]) == Some(score(s.memories[id]));
      assert Pick(s, q, rate, id) == [Scored(score(s.memories[id]), s.memories[id], SourcesOf(s, id))];
      assert Scored(score(s.memories[id]), s.memories[id], SourcesOf(s, id)) in Pick(s, q, rate, id);
    }
  }

  // ---- the exact channel --------------------------------------------------------------------------

  predicate NamedBy(q: Query, m: Memory) {
    q.exactLimit > 0 && m.key in q.keys
  }

  /** The exact channel lists the memories whose key the query names. */
  lemma ExactMeans(e: Engine, s: State, q: Query)
    requires Search(e, s, q).Ok? && forall id :: id in s.memories ==> s.memories[id].id == id
    ensures var cs := Search(e, s, q).value.exact;
            && Correct(s, q, cs, q.exactLimit, Exact, m => NamedBy(q, m), m => 0.0)
            && Complete(s, q, cs, q.exactLimit, m => NamedBy(q, m), m => 0.0)
  {
    var ids := Walk(s.memories.Keys);
    WalkIs(s.memories.Keys);
    SelectedGathers(s, q, ExactRating(q), ids, m => NamedBy(q, m), m => 0.0);
    RankedMeans(s, q, Selected(s, q, ExactRating(q), ids), q.exactLimit, Exact, m => NamedBy(q, m), m => 0.0);
  }

  // ---- the vector channel -------------------------------------------------------------------------

  /** The similarity of the query to the memory's embedding, if that was made for its content and fits the query. */
  function Likeness(e: Engine, s: State, q: Query, m: Memory): Option<real> {
    if (m.id, q.profileID) !in s.embeddings then None
    else
      var x := s.embeddings[(m.id, q.profileID)];
      if x.dimensions == q.dimensions && x.contentHash == e.env.hash(m.content) then e.similarity(q.vector, x.vector)
      else None
  }

  predicate IsLike(e: Engine, s: State, q: Query, m: Memory) {
    q.vectorLimit > 0 && Likeness(e, s, q, m).Some? && Likeness(e, s, q, m).value >= q.minSimilarity
  }

  function LikeScore(e: Engine, s: State, q: Query, m: Memory): real {
    if Likeness(e, s, q, m).Some? then Likeness(e, s, q, m).value else 0.0
  }

  /** The vector channel lists the memories whose own current embedding is similar enough to the query. */
  lemma VectorMeans(e: Engine, s: State, q: Query)
    requires Search(e, s, q).Ok? && forall id :: id in s.memories ==> s.memories[id].id == id
    ensures var cs := Search(e, s, q).value.vector;
            && Correct(s, q, cs, q.vectorLimit, Vector, m => IsLike(e, s, q, m), m => LikeScore(e, s, q, m))
            && Complete(s, q, cs, q.vectorLimit, m => IsLike(e, s, q, m), m => LikeScore(e, s, q, m))
  {
    var ids, rate := Walk(s.memories.Keys), VectorRating(e, s, q);
    WalkIs(s.memories.Keys);
    SelectedGathers(s, q, rate, ids, m => IsLike(e, s, q, m), m => LikeScore(e, s, q, m));
    RankedMeans(s, q, Selected(s, q, rate, ids), q.vectorLimit, Vector, m => IsLike(e, s, q, m),
                m => LikeScore(e, s, q, m));
  }

  // ---- the full-text channel ----------------------------------------------------------------------

  function Matched(terms: seq<string>, hit: string -> bool): set<string> {
    set t | t in terms && hit(t)
  }

  /** How many of the query's different words and grams the memory's key and content contain. */
  function TermHits(e: Engine, q: Query, m: Memory): nat {
    var text := m.key + " " + m.content;
    |Matched(QueryWords(e.unicode, q.text), w => w in Words(e.unicode, text))|
    + |Matched(QueryGrams(e.unicode, q.text), g => Contains(text, g))|
  }

  lemma MatchedHead(t: string, terms: seq<string>, hit: string -> bool)
    requires t !in terms
    ensures |Matched([t] + terms, hit)| == |Matched(terms, hit)| + if hit(t) then 1 else 0
  {
    assert Matched([t] + terms, hit) == Matched(terms, hit) + if hit(t) then {t} else {};
  }

  lemma {:induction false} HitCountIs(terms: seq<string>, hit: string -> bool)
    requires forall i, j :: 0 <= i < j < |terms| ==> terms[i] != terms[j]
    ensures HitCount(terms, hit) == |Matched(terms, hit)|
  {
    if terms != [] {
      HitCountIs(terms[1..], hit);
      MatchedHead(terms[0], terms[1..], hit);
      assert terms == [terms[0]] + terms[1..];
    } else {
      assert Matched(terms, hit) == {};
    }
  }

  lemma HitsAre(e: Engine, q: Query, m: Memory)
    ensures Hits(e.unicode, m.key, m.content, QueryWords(e.unicode, q.text), QueryGrams(e.unicode, q.text))
            == TermHits(e, q, m)
  {
    var text := m.key + " " + m.content;
    LimitedIsPrefix(Words(e.unicode, q.text), MAX_SEARCH_WORDS);
    LimitedIsPrefix(Grams(e.unicode, q.text), MAX_SEARCH_GRAMS);
    HitCountIs(QueryWords(e.unicode, q.text), w => w in Words(e.unicode, text));
    HitCountIs(QueryGrams(e.unicode, q.text), g => Contains(text, g));
  }

  /** The memory contains more than half as many of the query's terms as any wanted memory does. */
  ghost predicate Covers(e: Engine, s: State, q: Query, m: Memory) {
    && q.fullTextLimit > 0 && TermHits(e, q, m) > 0
    && forall id :: id in s.memories && Wanted(q, s.memories[id]) ==>
                      2 * TermHits(e, q, m) > TermHits(e, q, s.memories[id])
  }

  lemma TextRates(e: Engine, q: Query)
    ensures Rates(TextRating(e, q), m => q.fullTextLimit > 0 && TermHits(e, q, m) > 0, m => TermHits(e, q, m) as real)
  {
    forall m ensures TextRating(e, q)(m) == if q.fullTextLimit > 0 && TermHits(e, q, m) > 0
                                            then Some(TermHits(e, q, m) as real) else None {
      HitsAre(e, q, m);
    }
  }

  lemma CutoffGathers(e: Engine, s: State, q: Query, xs: seq<Scored>)
    requires Gathers(s, q, xs, m => q.fullTextLimit > 0 && TermHits(e, q, m) > 0, m => TermHits(e, q, m) as real)
    ensures Gathers(s, q, Cutoff(xs), m => Covers(e, s, q, m), m => TermHits(e, q, m) as real)
  {
    BestIs(xs);
    CutoffIs(Best(xs), xs);
    forall x | x in xs ensures x.score * 2.0 > Best(xs) <==> Covers(e, s, q, x.memory) {
      KeptCovers(e, s, q, xs, x);
    }
  }

  lemma KeptCovers(e: Engine, s: State, q: Query, xs: seq<Scored>, x: Scored)
    requires Gathers(s, q, xs, m => q.fullTextLimit > 0 && TermHits(e, q, m) > 0, m => TermHits(e, q, m) as real)
    requires x in xs
    ensures x.score * 2.0 > Best(xs) <==> Covers(e, s, q, x.memory)
  {
    BestIs(xs);
    if x.score * 2.0 > Best(xs) {
      forall id | id in s.memories && Wanted(q, s.memories[id])
        ensures 2 * TermHits(e, q, x.memory) > TermHits(e, q, s.memories[id])
      {
        if TermHits(e, q, s.memories[id]) > 0 {
          var y := Scored(TermHits(e, q, s.memories[id]) as real, s.memories[id], SourcesOf(s, id));
          assert y in xs;
        }
      }
    }
    if Covers(e, s, q, x.memory) && Best(xs) != 0.0 {
      var y :| y in xs && y.score == Best(xs);
      assert 2 * TermHits(e, q, x.memory) > TermHits(e, q, s.memories[y.memory.id]);
    }
  }

  /** The full-text channel lists the memories that cover the query, by how many of its terms they contain. */
  lemma FullTextMeans(e: Engine, s: State, q: Query)
    requires Search(e, s, q).Ok? && forall id :: id in s.memories ==> s.memories[id].id == id
    ensures var cs := Search(e, s, q).value.fullText;
            && Correct(s, q, cs, q.fullTextLimit, FullText, m => Covers(e, s, q, m), m => TermHits(e, q, m) as real)
            && Complete(s, q, cs, q.fullTextLimit, m => Covers(e, s, q, m), m => TermHits(e, q, m) as real)
  {
    var ids, rate := Walk(s.memories.Keys), TextRating(e, q);
    WalkIs(s.memories.Keys);
    TextRates(e, q);
    SelectedGathers(s, q, rate, ids, m => q.fullTextLimit > 0 && TermHits(e, q, m) > 0, m => TermHits(e, q, m) as real);
    CutoffGathers(e, s, q, Selected(s, q, rate, ids));
    RankedMeans(s, q, Cutoff(Selected(s, q, rate, ids)), q.fullTextLimit, FullText, m => Covers(e, s, q, m),
                m => TermHits(e, q, m) as real);
  }
}
