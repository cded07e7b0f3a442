/**
 SearchCandidates of the reference store: three channels over the active, effective memories of
 a scope, each ranked and limited. The map is walked in an arbitrary order, and the result is
 proved not to depend on it.
 */
module RecallSearch {
  import opened Wrappers
  import opened Text
  import opened Order
  import opened MemoryTypes
  import opened MemoryModel
  import opened SearchTerms

  datatype Channel = Exact | FullText | Vector

  datatype Query = Query(
    scope: Scope, text: string, keys: seq<string>, kinds: seq<Kind>, vector: seq<real>, now: Time,
    exactLimit: int, fullTextLimit: int, vectorLimit: int, minSimilarity: real, profileID: string, dimensions: int)

  datatype Found = Found(memory: Memory, sources: seq<Source>, channel: Channel, rank: int, similarity: real)

  datatype CandidateSet = CandidateSet(exact: seq<Found>, fullText: seq<Found>, vector: seq<Found>)

  /** The store's limits and hash, the Unicode tables, and the cosine similarity of two vectors. */
  datatype Engine = Engine(env: Env, unicode: Unicode, similarity: (seq<real>, seq<real>) -> Option<real>) {
    /** Letters and Chinese characters are not white space, and a similarity is clamped to [-1, 1]. */
    ghost predicate Valid() {
      && (forall c :: IsSpace(c) ==> !unicode.cjk(c) && !unicode.alnum(c))
      && (forall v, w :: similarity(v, w).Some? ==> -1.0 <= similarity(v, w).value <= 1.0)
    }
  }

  predicate Unique<T(==)>(xs: seq<T>) {
    forall i, j :: 0 <= i < j < |xs| ==> xs[i] != xs[j]
  }

  /** ValidateCandidateQuery. */
  predicate ValidQuery(q: Query, limits: Limits) {
    && limits.Valid() && q.scope.Valid()
    && 0 <= q.exactLimit <= limits.maxListItems && 0 <= q.fullTextLimit <= limits.maxListItems
    && 0 <= q.vectorLimit <= limits.maxListItems
    && (q.exactLimit > 0 || q.fullTextLimit > 0 || q.vectorLimit > 0)
    && |q.text| <= limits.maxContentRunes && |q.keys| <= limits.maxListItems
    && (forall k :: k in q.keys ==> !Blank(k)) && Unique(q.keys)
    && (forall k :: k in q.kinds ==> !k.OtherKind?) && Unique(q.kinds)
    && (if q.vectorLimit == 0 then q.vector == [] && q.profileID == "" && q.dimensions == 0 && q.minSimilarity == 0.0
        else !Blank(q.profileID) && q.profileID == Trim(q.profileID) && q.dimensions > 0 && |q.vector| == q.dimensions
             && 0.0 <= q.minSimilarity <= 1.0 && NonZero(q.vector))
  }

  // ---- Selecting and rating ----

  predicate Effective(m: Memory, now: Time) {
    m.validFrom <= now && (m.validUntil == ZERO_TIME || now < m.validUntil)
  }

  predicate Eligible(q: Query, m: Memory) {
    m.scope == q.scope && m.status == Active && Effective(m, q.now) && (q.kinds == [] || m.kind in q.kinds)
  }

  datatype Scored = Scored(score: real, memory: Memory, sources: seq<Source>)

  /** How a channel rates a memory; None when it does not select it. */
  type Rating = Memory -> Option<real>

  function ExactRating(q: Query): Rating {
    (m: Memory) => if q.exactLimit > 0 && m.key in q.keys then Some(0.0) else None
  }

  function TextRating(e: Engine, q: Query): Rating {
    (m: Memory) =>
      var hits := Hits(e.unicode, m.key, m.content, QueryWords(e.unicode, q.text), QueryGrams(e.unicode, q.text));
      if q.fullTextLimit > 0 && hits > 0 then Some(hits as real) else None
  }

  function VectorRating(e: Engine, s: State, q: Query): Rating {
    (m: Memory) =>
      if q.vectorLimit > 0 && (m.id, q.profileID) in s.embeddings then
        var embedding := s.embeddings[(m.id, q.profileID)];
        if embedding.dimensions != q.dimensions || embedding.contentHash != e.env.hash(m.content) then None
        else
          var similarity := e.similarity(q.vector, embedding.vector);
          if similarity.Some? && similarity.value >= q.minSimilarity then similarity else None
      else None
  }

  function SourcesOf(s: State, id: string): seq<Source> {
    if id in s.sources then s.sources[id] else []
  }

  /** What one memory adds to a channel. */
  function Pick(s: State, q: Query, rate: Rating, id: string): seq<Scored> {
    if id in s.memories && Eligible(q, s.memories[id]) && rate(s.memories[id]).Some? then
      [Scored(rate(s.memories[id]).value, s.memories[id], SourcesOf(s, id))]
    else []
  }

  function FlatMap<T, U>(f: T -> seq<U>, xs: seq<T>): seq<U> {
    if xs == [] then [] else f(xs[0]) + FlatMap(f, xs[1..])
  }

  function Picker(s: State, q: Query, rate: Rating): string -> seq<Scored> {
    id => Pick(s, q, rate, id)
  }

  function Selected(s: State, q: Query, rate: Rating, ids: seq<string>): seq<Scored> {
    FlatMap(Picker(s, q, rate), ids)
  }

  function Best(xs: seq<Scored>): real {
    if xs == [] then 0.0 else var rest := Best(xs[1..]); if xs[0].score > rest then xs[0].score else rest
  }

  function Keeper(best: real): Scored -> seq<Scored> {
    (x: Scored) => if x.score * 2.0 > best then [x] else []
  }

  /** Only matches with more than half as many terms as the best one stay. */
  function Cutoff(xs: seq<Scored>): seq<Scored> {
    FlatMap(Keeper(Best(xs)), xs)
  }

  /** Higher score first, then importance, then the later update, then the ID. */
  predicate Before(x: Scored, y: Scored) {
    if x.score != y.score then x.score > y.score
    else if x.memory.importance != y.memory.importance then x.memory.importance > y.memory.importance
    else if x.memory.updatedAt != y.memory.updatedAt then x.memory.updatedAt > y.memory.updatedAt
    else Less(x.memory.id, y.memory.id)
  }

  function Ranked(xs: seq<Scored>, limit: int, channel: Channel): (r: seq<Found>)
    requires 0 <= limit
    ensures |r| == if |xs| > limit then limit else |xs|
    ensures forall i :: 0 <= i < |r| ==>
              r[i] == Found(xs[i].memory, xs[i].sources, channel, i + 1, if channel == Vector then xs[i].score else 0.0)
  {
    seq(if |xs| > limit then limit else |xs|, i requires 0 <= i < |xs| =>
      Found(xs[i].memory, xs[i].sources, channel, i + 1, if channel == Vector then xs[i].score else 0.0))
  }

  /** The result when the memories are walked in the order `ids`. */
  function SearchIn(e: Engine, s: State, q: Query, ids: seq<string>): CandidateSet
    requires q.exactLimit >= 0 && q.fullTextLimit >= 0 && q.vectorLimit >= 0
  {
    CandidateSet(
      Ranked(Sort(Before, Selected(s, q, ExactRating(q), ids)), q.exactLimit, Exact),
      Ranked(Sort(Before, Cutoff(Selected(s, q, TextRating(e, q), ids))), q.fullTextLimit, FullText),
      Ranked(Sort(Before, Selected(s, q, VectorRating(e, s, q), ids)), q.vectorLimit, Vector))
  }

  /** Some order in which to walk a map's keys. */
  ghost function Walk(keys: set<string>): seq<string> {
    if keys == {} then [] else var k :| k in keys; [k] + Walk(keys - {k})
  }

  ghost function Search(e: Engine, s: State, q: Query): Result<CandidateSet, Error> {
    if !ValidQuery(q, e.env.limits) then Err(InvalidMemory) else Ok(SearchIn(e, s, q, Walk(s.memories.Keys)))
  }

  // ---- The order of the walk does not matter ----

  lemma {:induction false} FlatMapConcat<T, U>(f: T -> seq<U>, xs: seq<T>, ys: seq<T>)
    ensures FlatMap(f, xs + ys) == FlatMap(f, xs) + FlatMap(f, ys)
  {
    if xs == [] {
      assert xs + ys == ys;
    } else {
      assert (xs + ys)[0] == xs[0] && (xs + ys)[1..] == xs[1..] + ys;
      FlatMapConcat(f, xs[1..], ys);
    }
  }

  lemma FlatMapOne<T, U>(f: T -> seq<U>, x: T)
    ensures FlatMap(f, [x]) == f(x)
  {
    assert [x][1..] == [];
    assert f(x) + [] == f(x);
  }

  lemma WithoutOne<T>(ys: seq<T>, k: nat)
    requires k < |ys|
    ensures multiset(ys[..k] + ys[k + 1..]) == multiset(ys) - multiset{ys[k]}
    ensures ys == ys[..k] + ([ys[k]] + ys[k + 1..])
  {
    assert ys == ys[..k] + ([ys[k]] + ys[k + 1..]);
    assert multiset(ys) == multiset(ys[..k]) + (multiset{ys[k]} + multiset(ys[k + 1..]));
  }

  lemma WithoutFirst<T>(xs: seq<T>)
    requires xs != []
    ensures multiset(xs[1..]) == multiset(xs) - multiset{xs[0]}
  {
    assert xs == [xs[0]] + xs[1..];
  }

  lemma SameWhenEmpty<T>(ys: seq<T>)
    requires multiset(ys) == multiset{}
    ensures ys == []
  {
    assert |multiset(ys)| == |ys|;
  }

  lemma {:induction false} FlatMapPermutes<T, U>(f: T -> seq<U>, xs: seq<T>, ys: seq<T>)
    requires multiset(xs) == multiset(ys)
    ensures multiset(FlatMap(f, xs)) == multiset(FlatMap(f, ys))
  {
    if xs == [] {
      SameWhenEmpty(ys);
    } else {
      assert xs[0] in multiset(ys);
      var k :| 0 <= k < |ys| && ys[k] == xs[0];
      var before, after := ys[..k], ys[k + 1..];
      WithoutOne(ys, k);
      WithoutFirst(xs);
      FlatMapPermutes(f, xs[1..], before + after);
      FlatMapSplit(f, before, ys[k], after);
    }
  }

  lemma FlatMapSplit<T, U>(f: T -> seq<U>, before: seq<T>, x: T, after: seq<T>)
    ensures multiset(FlatMap(f, before + ([x] + after))) == multiset(f(x)) + multiset(FlatMap(f, before + after))
  {
    FlatMapConcat(f, before, after);
    FlatMapConcat(f, before, [x] + after);
    FlatMapConcat(f, [x], after);
    FlatMapOne(f, x);
  }

  lemma {:induction false} BestIs(xs: seq<Scored>)
    ensures forall x :: x in xs ==> x.score <= Best(xs)
    ensures Best(xs) >= 0.0 && (Best(xs) == 0.0 || exists x :: x in xs && x.score == Best(xs))
  {
    if xs != [] {
      BestIs(xs[1..]);
      assert xs == [xs[0]] + xs[1..];
      assert xs[0] in xs;
    }
  }

  lemma BestPermutes(xs: seq<Scored>, ys: seq<Scored>)
    requires multiset(xs) == multiset(ys)
    ensures Best(xs) == Best(ys)
  {
    BestIs(xs);
    BestIs(ys);
    assert forall x :: x in xs <==> x in multiset(xs);
    assert forall x :: x in ys <==> x in multiset(ys);
  }

  lemma BeforeOrder()
    ensures StrictOrder(Before)
  {
    forall x: Scored, y: Scored | Before(x, y) ensures !Before(y, x) {
      LessTotal(x.memory.id, y.memory.id);
    }
    forall x: Scored, y: Scored, z: Scored | !Before(y, x) && !Before(z, y) ensures !Before(z, x) {
      BeforeChains(x, y, z);
    }
  }

  lemma BeforeChains(x: Scored, y: Scored, z: Scored)
    requires !Before(y, x) && !Before(z, y)
    ensures !Before(z, x)
  {
    var a, b, c := x.memory.id, y.memory.id, z.memory.id;
    LessTotal(a, b);
    LessTotal(b, c);
    LessTotal(a, c);
    if Less(a, b) && Less(b, c) {
      LessTransitive(a, b, c);
    }
  }

  lemma BeforeTotal(x: Scored, y: Scored)
    requires x.memory.id != y.memory.id
    ensures Before(x, y) || Before(y, x)
  {
    LessTotal(x.memory.id, y.memory.id);
  }

  ghost predicate Decided<T>(less: (T, T) -> bool, xs: seq<T>) {
    forall i, j :: 0 <= i < |xs| && 0 <= j < |xs| ==> xs[i] == xs[j] || less(xs[i], xs[j]) || less(xs[j], xs[i])
  }

  /** A total order has one sorted arrangement. */
  lemma {:induction false} SortedUnique<T(!new)>(less: (T, T) -> bool, xs: seq<T>, ys: seq<T>)
    requires StrictOrder(less) && Sorted(less, xs) && Sorted(less, ys) && Decided(less, xs)
    requires multiset(xs) == multiset(ys)
    ensures xs == ys
  {
    assert |xs| == |multiset(xs)| == |multiset(ys)| == |ys|;
    if xs != [] {
      assert ys[0] in multiset(xs) && xs[0] in multiset(ys);
      var i :| 0 <= i < |xs| && xs[i] == ys[0];
      var j :| 0 <= j < |ys| && ys[j] == xs[0];
      assert xs[0] == ys[0];
      WithoutFirst(xs);
      WithoutFirst(ys);
      SortedUnique(less, xs[1..], ys[1..]);
    }
  }

  lemma SortedDecided(xs: seq<Scored>)
    requires forall i, j :: 0 <= i < |xs| && 0 <= j < |xs| ==> xs[i] == xs[j] || xs[i].memory.id != xs[j].memory.id
    ensures Decided(Before, Sort(Before, xs))
  {
    SortPermutes(Before, xs);
    var zs := Sort(Before, xs);
    forall i, j | 0 <= i < |zs| && 0 <= j < |zs|
      ensures zs[i] == zs[j] || Before(zs[i], zs[j]) || Before(zs[j], zs[i])
    {
      assert zs[i] in xs && zs[j] in xs;
      if zs[i] != zs[j] {
        BeforeTotal(zs[i], zs[j]);
      }
    }
  }

  lemma SortDecided(xs: seq<Scored>, ys: seq<Scored>)
    requires multiset(xs) == multiset(ys)
    requires forall i, j :: 0 <= i < |xs| && 0 <= j < |xs| ==> xs[i] == xs[j] || xs[i].memory.id != xs[j].memory.id
    ensures Sort(Before, xs) == Sort(Before, ys)
  {
    SortedDecided(xs);
    BeforeOrder();
    SortSorts(Before, xs);
    SortSorts(Before, ys);
    SortPermutes(Before, xs);
    SortPermutes(Before, ys);
    SortedUnique(Before, Sort(Before, xs), Sort(Before, ys));
  }

  predicate Identified(xs: seq<Scored>) {
    forall i, j :: 0 <= i < j < |xs| ==> xs[i].memory.id != xs[j].memory.id
  }

  /** Where a selected memory comes from. */
  lemma {:induction false} SelectedIs(s: State, q: Query, rate: Rating, ids: seq<string>)
    requires forall id :: id in s.memories ==> s.memories[id].id == id
    ensures forall x :: x in Selected(s, q, rate, ids) ==> x.memory.id in ids && [x] == Pick(s, q, rate, x.memory.id)
    ensures Unique(ids) ==> Identified(Selected(s, q, rate, ids))
  {
    if ids != [] {
      SelectedIs(s, q, rate, ids[1..]);
      assert ids == [ids[0]] + ids[1..];
      var head, tail := Pick(s, q, rate, ids[0]), Selected(s, q, rate, ids[1..]);
      assert Selected(s, q, rate, ids) == head + tail;
      if Unique(ids) && head != [] {
        forall j | 0 <= j < |tail| ensures head[0].memory.id != tail[j].memory.id {
          assert tail[j] in tail;
        }
      }
    }
  }

  lemma {:induction false} CutoffIs(best: real, xs: seq<Scored>)
    ensures forall x :: x in FlatMap(Keeper(best), xs) <==> x in xs && x.score * 2.0 > best
    ensures Identified(xs) ==> Identified(FlatMap(Keeper(best), xs))
  {
    if xs != [] {
      CutoffIs(best, xs[1..]);
      assert xs == [xs[0]] + xs[1..];
      var tail := FlatMap(Keeper(best), xs[1..]);
      if Identified(xs) {
        forall j | 0 <= j < |tail| ensures xs[0].memory.id != tail[j].memory.id {
          assert tail[j] in tail;
        }
      }
    }
  }

  lemma IdentifiedDecides(xs: seq<Scored>)
    requires Identified(xs)
    ensures forall i, j :: 0 <= i < |xs| && 0 <= j < |xs| ==> xs[i] == xs[j] || xs[i].memory.id != xs[j].memory.id
  {
  }

  lemma {:induction false} WalkIs(keys: set<string>)
    ensures Unique(Walk(keys)) && multiset(Walk(keys)) == multiset(keys) && forall k :: k in Walk(keys) <==> k in keys
  {
    if keys != {} {
      var ids := Walk(keys);
      WalkIs(keys - {ids[0]});
      assert ids == [ids[0]] + Walk(keys - {ids[0]});
      assert multiset(keys) == multiset(keys - {ids[0]}) + multiset{ids[0]};
    }
  }

  lemma ChannelPermutes(s: State, q: Query, rate: Rating, xs: seq<string>, ys: seq<string>)
    requires multiset(xs) == multiset(ys) && Unique(xs) && forall id :: id in s.memories ==> s.memories[id].id == id
    ensures Sort(Before, Selected(s, q, rate, xs)) == Sort(Before, Selected(s, q, rate, ys))
    ensures Sort(Before, Cutoff(Selected(s, q, rate, xs))) == Sort(Before, Cutoff(Selected(s, q, rate, ys)))
  {
    var before, after := Selected(s, q, rate, xs), Selected(s, q, rate, ys);
    FlatMapPermutes(Picker(s, q, rate), xs, ys);
    SelectedIs(s, q, rate, xs);
    IdentifiedDecides(before);
    SortDecided(before, after);
    BestPermutes(before, after);
    FlatMapPermutes(Keeper(Best(before)), before, after);
    CutoffIs(Best(before), before);
    IdentifiedDecides(Cutoff(before));
    SortDecided(Cutoff(before), Cutoff(after));
  }

  /** Whatever order Go walks the map in, the search returns the same candidates with the same ranks. */
  lemma SearchIsDeterministic(e: Engine, s: State, q: Query, ids: seq<string>)
    requires q.exactLimit >= 0 && q.fullTextLimit >= 0 && q.vectorLimit >= 0
    requires multiset(ids) == multiset(s.memories.Keys) && forall id :: id in s.memories ==> s.memories[id].id == id
    ensures SearchIn(e, s, q, ids) == SearchIn(e, s, q, Walk(s.memories.Keys))
  {
    var walk := Walk(s.memories.Keys);
    WalkIs(s.memories.Keys);
    ChannelPermutes(s, q, ExactRating(q), walk, ids);
    ChannelPermutes(s, q, TextRating(e, q), walk, ids);
    ChannelPermutes(s, q, VectorRating(e, s, q), walk, ids);
  }

  lemma SortedEntries(xs: seq<Scored>)
    requires Identified(xs)
    ensures var ys := Sort(Before, xs); Sorted(Before, ys) && Identified(ys) && forall x :: x in ys <==> x in xs
  {
    BeforeOrder();
    SortSorts(Before, xs);
    SortPermutes(Before, xs);
    SortKeepsDistinct(Before, (x: Scored) => x.memory.id, xs);
  }

  lemma {:induction false} PickedIsSelected(s: State, q: Query, rate: Rating, ids: seq<string>, id: string)
    requires id in ids
    ensures forall x :: x in Pick(s, q, rate, id) ==> x in Selected(s, q, rate, ids)
  {
    assert ids == [ids[0]] + ids[1..];
    if id != ids[0] {
      PickedIsSelected(s, q, rate, ids[1..], id);
    }
  }

  /** No memory is rated higher than the query has terms. */
  lemma TextBestBound(e: Engine, s: State, q: Query, ids: seq<string>)
    requires forall id :: id in s.memories ==> s.memories[id].id == id
    ensures var terms := |QueryWords(e.unicode, q.text)| + |QueryGrams(e.unicode, q.text)|;
            Best(Selected(s, q, TextRating(e, q), ids)) <= terms as real
  {
    var words, grams := QueryWords(e.unicode, q.text), QueryGrams(e.unicode, q.text);
    var xs := Selected(s, q, TextRating(e, q), ids);
    SelectedIs(s, q, TextRating(e, q), ids);
    BestIs(xs);
    forall x | x in xs ensures x.score <= (|words| + |grams|) as real {
      assert [x] == Pick(s, q, TextRating(e, q), x.memory.id);
      assert x == [x][0];
      HitsBound(e.unicode, x.memory.key, x.memory.content, words, grams);
    }
  }

  lemma OwnContentRating(e: Engine, q: Query, m: Memory)
    requires e.unicode.SpaceSeparates() && q.fullTextLimit > 0 && m.content == q.text
    requires |QueryWords(e.unicode, q.text)| + |QueryGrams(e.unicode, q.text)| > 0
    ensures TextRating(e, q)(m) == Some((|QueryWords(e.unicode, q.text)| + |QueryGrams(e.unicode, q.text)|) as real)
  {
    OwnContentMatchesAll(e.unicode, m.key, q.text);
  }

  /** A positive rating that no other exceeds is the best one, and the cutoff keeps it. */
  lemma TopSurvives(s: State, q: Query, rate: Rating, ids: seq<string>, id: string)
    requires id in ids && id in s.memories && Eligible(q, s.memories[id]) && rate(s.memories[id]).Some?
    requires rate(s.memories[id]).value > 0.0 && Best(Selected(s, q, rate, ids)) <= rate(s.memories[id]).value
    ensures var xs := Selected(s, q, rate, ids);
            Scored(Best(xs), s.memories[id], SourcesOf(s, id)) in Cutoff(xs)
  {
    var x := Scored(rate(s.memories[id]).value, s.memories[id], SourcesOf(s, id));
    assert Pick(s, q, rate, id) == [x];
    assert x in Pick(s, q, rate, id);
    PickedIsSelected(s, q, rate, ids, id);
    BestSurvives(Selected(s, q, rate, ids), x);
  }

  lemma BestSurvives(xs: seq<Scored>, x: Scored)
    requires x in xs && x.score > 0.0 && Best(xs) <= x.score
    ensures x.score == Best(xs) && x in Cutoff(xs)
  {
    BestIs(xs);
    CutoffIs(Best(xs), xs);
  }

  lemma EngineSeparates(e: Engine)
    requires e.Valid()
    ensures e.unicode.SpaceSeparates()
  {
    assert IsSpace(' ');
  }

  /** A memory whose content is the query is rated best by the full-text channel, and the cutoff keeps it. */
  lemma OwnContentSurvivesCutoff(e: Engine, s: State, q: Query, ids: seq<string>, id: string)
    requires e.Valid() && q.fullTextLimit > 0 && forall k :: k in s.memories ==> s.memories[k].id == k
    requires |QueryWords(e.unicode, q.text)| + |QueryGrams(e.unicode, q.text)| > 0
    requires id in ids && id in s.memories && Eligible(q, s.memories[id]) && s.memories[id].content == q.text
    ensures var xs := Selected(s, q, TextRating(e, q), ids);
            Scored(Best(xs), s.memories[id], SourcesOf(s, id)) in Cutoff(xs)
  {
    EngineSeparates(e);
    OwnContentRating(e, q, s.memories[id]);
    TextBestBound(e, s, q, ids);
    TopSurvives(s, q, TextRating(e, q), ids, id);
  }

  lemma SelectedSnoc(s: State, q: Query, rate: Rating, ids: seq<string>, id: string)
    ensures Selected(s, q, rate, ids + [id]) == Selected(s, q, rate, ids) + Pick(s, q, rate, id)
  {
    FlatMapConcat(Picker(s, q, rate), ids, [id]);
    FlatMapOne(Picker(s, q, rate), id);
  }

  /** The best score and the cutoff loop of the full-text channel. */
  method KeepBest(xs: seq<Scored>) returns (kept: seq<Scored>)
    ensures kept == Cutoff(xs)
  {
    var best := 0.0;
    for i := |xs| downto 0
      invariant best == Best(xs[i..])
    {
      if xs[i].score > best {
        best := xs[i].score;
      }
    }
    assert xs[0..] == xs;
    kept := [];
    for i := 0 to |xs|
      invariant kept == FlatMap(Keeper(best), xs[..i])
    {
      FlatMapConcat(Keeper(best), xs[..i], [xs[i]]);
      FlatMapOne(Keeper(best), xs[i]);
      assert xs[..i] + [xs[i]] == xs[..i + 1];
      if xs[i].score * 2.0 > best {
        kept := kept + [xs[i]];
      }
    }
    assert xs[..|xs|] == xs;
  }

  /** One memory's entry in the vector channel. */
  method RateVector(e: Engine, s: State, q: Query, m: Memory) returns (rating: Option<real>)
    ensures rating == VectorRating(e, s, q)(m)
  {
    rating := None;
    if q.vectorLimit > 0 && (m.id, q.profileID) in s.embeddings {
      var embedding := s.embeddings[(m.id, q.profileID)];
      if embedding.dimensions == q.dimensions && embedding.contentHash == e.env.hash(m.content) {
        var similarity := e.similarity(q.vector, embedding.vector);
        if similarity.Some? && similarity.value >= q.minSimilarity {
          rating := similarity;
        }
      }
    }
  }

  method RateText(e: Engine, q: Query, m: Memory, words: seq<string>, grams: seq<string>) returns (rating: Option<real>)
    requires words == QueryWords(e.unicode, q.text) && grams == QueryGrams(e.unicode, q.text)
    ensures rating == TextRating(e, q)(m)
  {
    rating := None;
    if q.fullTextLimit > 0 {
      var hits := CountSearchTermHits(e.unicode, m.key, m.content, words, grams);
      if hits > 0 {
        rating := Some(hits as real);
      }
    }
  }

  /** What one memory adds to each channel. */
  method Rate(e: Engine, s: State, q: Query, id: string, words: seq<string>, grams: seq<string>)
    returns (exact: seq<Scored>, text: seq<Scored>, vector: seq<Scored>)
    requires id in s.memories && words == QueryWords(e.unicode, q.text) && grams == QueryGrams(e.unicode, q.text)
    ensures exact == Pick(s, q, ExactRating(q), id)
    ensures text == Pick(s, q, TextRating(e, q), id)
    ensures vector == Pick(s, q, VectorRating(e, s, q), id)
  {
    exact, text, vector := [], [], [];
    var m := s.memories[id];
    if Eligible(q, m) {
      var sources := SourcesOf(s, id);
      if q.exactLimit > 0 && m.key in q.keys {
        exact := [Scored(0.0, m, sources)];
      }
      var hits := RateText(e, q, m, words, grams);
      if hits.Some? {
        text := [Scored(hits.value, m, sources)];
      }
      var similarity := RateVector(e, s, q, m);
      if similarity.Some? {
        vector := [Scored(similarity.value, m, sources)];
      }
    }
  }

  /** The walk over the memories, in any order. */
  method Collect(e: Engine, s: State, q: Query)
    returns (exact: seq<Scored>, text: seq<Scored>, vector: seq<Scored>, ghost ids: seq<string>)
    ensures multiset(ids) == multiset(s.memories.Keys)
    ensures exact == Selected(s, q, ExactRating(q), ids)
    ensures text == Selected(s, q, TextRating(e, q), ids)
    ensures vector == Selected(s, q, VectorRating(e, s, q), ids)
  {
    var words, grams := SearchTermsOf(e.unicode, q.text);
    exact, text, vector, ids := [], [], [], [];
    var remaining := s.memories.Keys;
    while remaining != {}
      invariant remaining <= s.memories.Keys && multiset(ids) + multiset(remaining) == multiset(s.memories.Keys)
      invariant exact == Selected(s, q, ExactRating(q), ids)
      invariant text == Selected(s, q, TextRating(e, q), ids)
      invariant vector == Selected(s, q, VectorRating(e, s, q), ids)
      decreases |remaining|
    {
      var id :| id in remaining;
      var x, t, v := Rate(e, s, q, id, words, grams);
      SelectedSnoc(s, q, ExactRating(q), ids, id);
      SelectedSnoc(s, q, TextRating(e, q), ids, id);
      SelectedSnoc(s, q, VectorRating(e, s, q), ids, id);
      exact, text, vector, ids := exact + x, text + t, vector + v, ids + [id];
      assert multiset(remaining) == multiset(remaining - {id}) + multiset{id};
      remaining := remaining - {id};
    }
  }

  /** SearchCandidates. */
  method SearchCandidates(e: Engine, s: State, q: Query) returns (r: Result<CandidateSet, Error>)
    requires forall id :: id in s.memories ==> s.memories[id].id == id
    ensures r == Search(e, s, q)
  {
    if !ValidQuery(q, e.env.limits) {
      return Err(InvalidMemory);
    }
    var exact, text, vector, ids := Collect(e, s, q);
    SearchIsDeterministic(e, s, q, ids);
    var kept := KeepBest(text);
    r := Ok(CandidateSet(
              Ranked(Sort(Before, exact), q.exactLimit, Exact),
              Ranked(Sort(Before, kept), q.fullTextLimit, FullText),
              Ranked(Sort(Before, vector), q.vectorLimit, Vector)));
  }
}
