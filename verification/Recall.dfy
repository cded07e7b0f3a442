/**
 Recall: the query, reciprocal-rank fusion of the three channels, and the selection of items
 within the item and token budgets.
 */
module Recall {
  import opened Wrappers
  import opened Text
  import opened Order
  import opened MemoryTypes
  import opened MemoryModel
  import opened MemoryShape
  import opened RecallSearch
  import opened RecallValidate

  // ---- Fusion ----

  /** What a rank in one channel is worth. */
  type Weight = int -> real

  /** Reciprocal-rank fusion with the policy's constant. */
  function Reciprocal(k: real): Weight
    requires k > 0.0
  {
    (rank: int) => if rank > 0 then 1.0 / (k + rank as real) else 0.0
  }

  /** What a memory has collected over the channels. */
  function ScoreIn(cs: seq<Found>, id: string, w: Weight): real {
    if cs == [] then 0.0
    else
      var n := |cs| - 1;
      ScoreIn(cs[..n], id, w) + if cs[n].memory.id == id then w(cs[n].rank) else 0.0
  }

  function Everything(found: CandidateSet): seq<Found> {
    found.exact + found.fullText + found.vector
  }

  predicate Stems(x: Scored, cs: seq<Found>) {
    exists i :: 0 <= i < |cs| && cs[i].memory == x.memory && cs[i].sources == x.sources
  }

  predicate Holds(xs: seq<Scored>, id: string) {
    exists i :: 0 <= i < |xs| && xs[i].memory.id == id
  }

  /** One item per memory found, with its total score, best first. */
  ghost predicate Fuses(xs: seq<Scored>, cs: seq<Found>, w: Weight) {
    && Sorted(Before, xs) && Identified(xs)
    && (forall i :: 0 <= i < |xs| ==> Stems(xs[i], cs) && xs[i].score == ScoreIn(cs, xs[i].memory.id, w))
    && (forall i :: 0 <= i < |cs| ==> Holds(xs, cs[i].memory.id))
  }

  predicate Entry(x: Scored, id: string, cs: seq<Found>, w: Weight) {
    x.memory.id == id && Stems(x, cs) && x.score == ScoreIn(cs, id, w)
  }

  ghost predicate Tallies(byID: map<string, Scored>, cs: seq<Found>, w: Weight) {
    && (forall id :: id in byID ==> Entry(byID[id], id, cs, w))
    && (forall i :: 0 <= i < |cs| ==> cs[i].memory.id in byID)
  }

  lemma StemsMore(x: Scored, cs: seq<Found>, c: Found)
    requires Stems(x, cs)
    ensures Stems(x, cs + [c])
  {
    var i :| 0 <= i < |cs| && cs[i].memory == x.memory && cs[i].sources == x.sources;
    assert (cs + [c])[i] == cs[i];
  }

  lemma ScoreSnoc(cs: seq<Found>, c: Found, id: string, w: Weight)
    ensures ScoreIn(cs + [c], id, w) == ScoreIn(cs, id, w) + if c.memory.id == id then w(c.rank) else 0.0
  {
    assert (cs + [c])[..|cs|] == cs && (cs + [c])[|cs|] == c;
  }

  lemma {:induction false} AbsentScore(cs: seq<Found>, id: string, w: Weight)
    requires forall i :: 0 <= i < |cs| ==> cs[i].memory.id != id
    ensures ScoreIn(cs, id, w) == 0.0
  {
    if cs != [] {
      AbsentScore(cs[..|cs| - 1], id, w);
    }
  }

  lemma TallyStep(byID: map<string, Scored>, cs: seq<Found>, c: Found, w: Weight, x: Scored)
    requires Tallies(byID, cs, w)
    requires x.score == (if c.memory.id in byID then byID[c.memory.id].score else 0.0) + w(c.rank)
    requires if c.memory.id in byID then x.memory == byID[c.memory.id].memory && x.sources == byID[c.memory.id].sources
             else x.memory == c.memory && x.sources == c.sources
    ensures Tallies(byID[c.memory.id := x], cs + [c], w)
  {
    var more, all := byID[c.memory.id := x], cs + [c];
    forall id | id in more ensures Entry(more[id], id, all, w) {
      ScoreSnoc(cs, c, id, w);
      if id != c.memory.id {
        assert Entry(byID[id], id, cs, w);
        StemsMore(byID[id], cs, c);
      } else if id in byID {
        assert Entry(byID[id], id, cs, w);
        StemsMore(byID[id], cs, c);
        StemsSame(byID[id], x, all);
      } else {
        assert all[|cs|] == c;
        AbsentScore(cs, id, w);
      }
    }
  }

  lemma StemsSame(x: Scored, y: Scored, cs: seq<Found>)
    requires Stems(x, cs) && x.memory == y.memory && x.sources == y.sources
    ensures Stems(y, cs)
  {
  }

  /** The scoring loop of fuse. */
  method Tally(cs: seq<Found>, w: Weight) returns (byID: map<string, Scored>)
    ensures Tallies(byID, cs, w)
  {
    byID := map[];
    for i := 0 to |cs|
      invariant Tallies(byID, cs[..i], w)
    {
      var c := cs[i];
      assert cs[..i] + [c] == cs[..i + 1];
      var before := if c.memory.id in byID then byID[c.memory.id] else Scored(0.0, c.memory, c.sources);
      var x := before.(score := before.score + w(c.rank));
      TallyStep(byID, cs[..i], c, w, x);
      byID := byID[c.memory.id := x];
    }
    assert cs[..|cs|] == cs;
  }

  /** The entries of a map, in any order. */
  method Entries(byID: map<string, Scored>) returns (xs: seq<Scored>)
    requires forall id :: id in byID ==> byID[id].memory.id == id
    ensures Identified(xs)
    ensures forall x :: x in xs ==> x.memory.id in byID && byID[x.memory.id] == x
    ensures forall id :: id in byID ==> byID[id] in xs
  {
    xs := [];
    var remaining := byID.Keys;
    while remaining != {}
      invariant remaining <= byID.Keys && Identified(xs)
      invariant forall x :: x in xs ==> x.memory.id in byID && x.memory.id !in remaining && byID[x.memory.id] == x
      invariant forall id :: id in byID && id !in remaining ==> byID[id] in xs
      decreases |remaining|
    {
      var id :| id in remaining;
      assert forall i :: 0 <= i < |xs| ==> xs[i] in xs && xs[i].memory.id != id;
      xs := xs + [byID[id]];
      remaining := remaining - {id};
    }
  }

  lemma EntriesFuse(byID: map<string, Scored>, ys: seq<Scored>, cs: seq<Found>, w: Weight)
    requires Tallies(byID, cs, w) && Sorted(Before, ys) && Identified(ys)
    requires forall x :: x in ys ==> x.memory.id in byID && byID[x.memory.id] == x
    requires forall id :: id in byID ==> byID[id] in ys
    ensures Fuses(ys, cs, w)
  {
    forall i | 0 <= i < |ys| ensures Stems(ys[i], cs) && ys[i].score == ScoreIn(cs, ys[i].memory.id, w) {
      assert ys[i] in ys;
      assert Entry(byID[ys[i].memory.id], ys[i].memory.id, cs, w);
    }
    forall i | 0 <= i < |cs| ensures Holds(ys, cs[i].memory.id) {
      var x := byID[cs[i].memory.id];
      assert Entry(x, cs[i].memory.id, cs, w);
      assert x in ys;
    }
  }

  /** fuse. */
  method Fuse(found: CandidateSet, w: Weight) returns (xs: seq<Scored>)
    ensures Fuses(xs, Everything(found), w)
  {
    var byID := Tally(Everything(found), w);
    forall id | id in byID ensures byID[id].memory.id == id {
      assert Entry(byID[id], id, Everything(found), w);
    }
    var entries := Entries(byID);
    SortedEntries(entries);
    xs := Sort(Before, entries);
    EntriesFuse(byID, xs, Everything(found), w);
  }

  // ---- Budgets ----

  type Cost = Scored -> int

  /** The greedy choice: in order, whatever still fits; None if a cost turns out negative. */
  function Pack(xs: seq<Scored>, cost: Cost, slots: nat, tokens: int): Option<seq<Scored>> {
    if xs == [] || slots == 0 then Some([])
    else if cost(xs[0]) < 0 then None
    else if cost(xs[0]) > tokens then Pack(xs[1..], cost, slots, tokens)
    else match Pack(xs[1..], cost, slots - 1, tokens - cost(xs[0]))
      case None => None
      case Some(rest) => Some([xs[0]] + rest)
  }

  function Total(xs: seq<Scored>, cost: Cost): int {
    if xs == [] then 0 else cost(xs[0]) + Total(xs[1..], cost)
  }

  /** xs with some elements left out. */
  predicate Subsequence(ys: seq<Scored>, xs: seq<Scored>)
    decreases |xs|
  {
    if ys == [] then true
    else xs != [] && (if ys[0] == xs[0] then Subsequence(ys[1..], xs[1..]) else Subsequence(ys, xs[1..]))
  }

  /**
   The choice keeps the order and both budgets, and is maximal: with a slot to spare, nothing left
   out could be added without exceeding the token budget.
   */
  lemma {:induction false} PackFits(xs: seq<Scored>, cost: Cost, slots: nat, tokens: int)
    requires tokens >= 0 && Identified(xs) && Pack(xs, cost, slots, tokens).Some?
    ensures var ys := Pack(xs, cost, slots, tokens).value;
            && Subsequence(ys, xs) && |ys| <= slots && 0 <= Total(ys, cost) <= tokens
            && (|ys| < slots ==> forall i :: 0 <= i < |xs| && xs[i] !in ys ==> Total(ys, cost) + cost(xs[i]) > tokens)
  {
    if xs != [] && slots > 0 {
      var ys := Pack(xs, cost, slots, tokens).value;
      if cost(xs[0]) > tokens {
        PackFits(xs[1..], cost, slots, tokens);
        SubsequenceIn(ys, xs[1..]);
        NotFirst(ys, xs);
      } else {
        var rest := Pack(xs[1..], cost, slots - 1, tokens - cost(xs[0])).value;
        PackFits(xs[1..], cost, slots - 1, tokens - cost(xs[0]));
        assert ys == [xs[0]] + rest && ys[1..] == rest;
        forall i | 0 <= i < |xs| && xs[i] !in ys && |ys| < slots ensures Total(ys, cost) + cost(xs[i]) > tokens {
          assert xs[0] in ys;
          assert xs[i] == xs[1..][i - 1] && xs[i] !in rest;
        }
      }
    }
  }

  /**
   The choice is greedy: whether the i-th memory is taken depends only on what was taken before it, the first n items.
   It is taken if and only if a slot and enough tokens are left.
   */
  lemma {:induction false} PackIsGreedy(xs: seq<Scored>, cost: Cost, slots: nat, tokens: int, i: nat) returns (n: nat)
    requires Identified(xs) && Pack(xs, cost, slots, tokens).Some? && i < |xs|
    ensures var ys := Pack(xs, cost, slots, tokens).value;
            && n <= |ys| && (forall y :: y in ys[..n] ==> y in xs[..i]) && (forall y :: y in ys[n..] ==> y in xs[i..])
            && (xs[i] in ys <==> n < slots && Total(ys[..n], cost) + cost(xs[i]) <= tokens)
  {
    n := 0;
    var ys := Pack(xs, cost, slots, tokens).value;
    if slots > 0 {
      assert xs == [xs[0]] + xs[1..];
      var takes := cost(xs[0]) <= tokens;
      var rest := if takes then Pack(xs[1..], cost, slots - 1, tokens - cost(xs[0])).value
                  else Pack(xs[1..], cost, slots, tokens).value;
      assert ys == (if takes then [xs[0]] else []) + rest;
      PackedFrom(xs[1..], cost, if takes then slots - 1 else slots, if takes then tokens - cost(xs[0]) else tokens);
      if i > 0 {
        var m := PackIsGreedy(xs[1..], cost, if takes then slots - 1 else slots,
                              if takes then tokens - cost(xs[0]) else tokens, i - 1);
        n := if takes then m + 1 else m;
        GreedyAfter(xs, ys, rest, takes, i, m, cost);
      }
    }
  }

  /** Only what is listed is taken. */
  lemma {:induction false} PackedFrom(xs: seq<Scored>, cost: Cost, slots: nat, tokens: int)
    requires Pack(xs, cost, slots, tokens).Some?
    ensures forall y :: y in Pack(xs, cost, slots, tokens).value ==> y in xs
  {
    if xs != [] && slots > 0 {
      assert xs == [xs[0]] + xs[1..];
      if cost(xs[0]) > tokens {
        PackedFrom(xs[1..], cost, slots, tokens);
      } else {
        PackedFrom(xs[1..], cost, slots - 1, tokens - cost(xs[0]));
      }
    }
  }

  lemma GreedyAfter(xs: seq<Scored>, ys: seq<Scored>, rest: seq<Scored>, takes: bool, i: nat, m: nat, cost: Cost)
    requires Identified(xs) && 0 < i < |xs| && m <= |rest| && ys == (if takes then [xs[0]] else []) + rest
    requires forall y :: y in rest[..m] ==> y in xs[1..][..i - 1]
    requires forall y :: y in rest[m..] ==> y in xs[1..][i - 1..]
    ensures var n := if takes then m + 1 else m;
            && n <= |ys| && (forall y :: y in ys[..n] ==> y in xs[..i]) && (forall y :: y in ys[n..] ==> y in xs[i..])
            && Total(ys[..n], cost) == (if takes then cost(xs[0]) else 0) + Total(rest[..m], cost)
            && (xs[i] in ys <==> xs[i] in rest)
  {
    assert xs[1..][i - 1..] == xs[i..];
    assert forall y :: y in xs[1..][..i - 1] ==> y in xs[..i];
    if takes {
      assert ys[..m + 1] == [xs[0]] + rest[..m] && ys[m + 1..] == rest[m..];
      assert ys[..m + 1][1..] == rest[..m];
      assert xs[0] in xs[..i];
    } else {
      assert ys == rest;
    }
  }

  lemma {:induction false} SubsequenceIn(ys: seq<Scored>, xs: seq<Scored>)
    requires Subsequence(ys, xs)
    ensures forall y :: y in ys ==> y in xs
    decreases |xs|
  {
    if ys != [] {
      assert ys == [ys[0]] + ys[1..] && xs == [xs[0]] + xs[1..];
      if ys[0] == xs[0] {
        SubsequenceIn(ys[1..], xs[1..]);
      } else {
        SubsequenceIn(ys, xs[1..]);
      }
    }
  }

  lemma NotFirst(ys: seq<Scored>, xs: seq<Scored>)
    requires xs != [] && Identified(xs) && Subsequence(ys, xs[1..]) && forall y :: y in ys ==> y in xs[1..]
    ensures Subsequence(ys, xs)
  {
    if ys != [] {
      assert ys[0] in xs[1..];
    }
  }

  /** Leaving elements out keeps the order and the distinctness of the rest. */
  lemma {:induction false} SubsequenceKeeps(ys: seq<Scored>, xs: seq<Scored>)
    requires Subsequence(ys, xs) && Sorted(Before, xs) && Identified(xs)
    ensures Sorted(Before, ys) && Identified(ys)
    decreases |xs|
  {
    if ys != [] {
      if ys[0] == xs[0] {
        SubsequenceKeeps(ys[1..], xs[1..]);
        SubsequenceIn(ys[1..], xs[1..]);
        forall j | 0 < j < |ys| ensures !Before(ys[j], ys[0]) && ys[j].memory.id != ys[0].memory.id {
          assert ys[j] == ys[1..][j - 1] && ys[j] in ys[1..];
        }
      } else {
        SubsequenceKeeps(ys, xs[1..]);
      }
    }
  }

  /** The budget loop of Recall. */
  method Choose(xs: seq<Scored>, cost: Cost, maxItems: nat, maxTokens: nat) returns (r: Option<seq<Scored>>)
    ensures r == Pack(xs, cost, maxItems, maxTokens)
  {
    var items: seq<Scored> := [];
    var remaining: int := maxTokens;
    assert xs[0..] == xs;
    JoinedNone(Pack(xs, cost, maxItems, maxTokens));
    for i := 0 to |xs|
      invariant |items| <= maxItems
      invariant Pack(xs, cost, maxItems, maxTokens) == Joined(items, Pack(xs[i..], cost, maxItems - |items|, remaining))
    {
      assert xs[i..][0] == xs[i] && xs[i..][1..] == xs[i + 1..];
      if |items| == maxItems {
        break;
      }
      var price := cost(xs[i]);
      if price < 0 {
        return None;
      }
      if price > remaining {
        continue;
      }
      JoinedSnoc(items, xs[i], Pack(xs[i + 1..], cost, maxItems - |items| - 1, remaining - price));
      remaining := remaining - price;
      items := items + [xs[i]];
    }
    assert items + [] == items;
    r := Some(items);
  }

  function Joined(items: seq<Scored>, rest: Option<seq<Scored>>): Option<seq<Scored>> {
    if rest.None? then None else Some(items + rest.value)
  }

  lemma JoinedNone(rest: Option<seq<Scored>>)
    ensures Joined([], rest) == rest
  {
    if rest.Some? {
      assert [] + rest.value == rest.value;
    }
  }

  lemma JoinedSnoc(items: seq<Scored>, x: Scored, rest: Option<seq<Scored>>)
    ensures Joined(items, Joined([x], rest)) == Joined(items + [x], rest)
  {
    if rest.Some? {
      assert items + ([x] + rest.value) == items + [x] + rest.value;
    }
  }

  // ---- Recall ----

  datatype Policy = Policy(
    exactLimit: int, fullTextLimit: int, vectorLimit: int, k: real, minSimilarity: real,
    maxItems: int, maxTokens: int, maxQueryRunes: int, maxKeys: int, profileID: string, dimensions: int)
  {
    predicate Valid() {
      && exactLimit >= 0 && fullTextLimit >= 0 && vectorLimit >= 0
      && (exactLimit > 0 || fullTextLimit > 0 || vectorLimit > 0)
      && k > 0.0 && 0.0 <= minSimilarity <= 1.0 && maxItems > 0 && maxTokens > 0 && maxQueryRunes > 0 && maxKeys > 0
      && !Blank(profileID) && profileID == Trim(profileID) && dimensions > 0
    }
  }

  datatype Ask = Ask(scope: Scope, text: string, keys: seq<string>, kinds: seq<Kind>, now: Time)

  /** validateAndCopyRequest. */
  predicate ValidAsk(p: Policy, r: Ask) {
    && r.scope.Valid() && (!Blank(r.text) || r.keys != []) && |r.text| <= p.maxQueryRunes && |r.keys| <= p.maxKeys
    && (forall k :: k in r.keys ==> !Blank(k)) && Unique(r.keys)
    && (forall k :: k in r.kinds ==> !k.OtherKind?) && Unique(r.kinds)
  }

  /** What the embedder answers; a recoverable failure only loses the vector channel. */
  datatype Embedded = Vectors(vectors: seq<seq<real>>) | RecoverableFailure | Failure

  datatype RecallError = InvalidRequest | InvalidEmbedding | DependencyFailed | InvalidResult | NegativeCost

  datatype Recalled = Recalled(items: seq<Scored>, degraded: bool)

  predicate WantsVector(p: Policy, r: Ask) {
    p.vectorLimit > 0 && !Blank(r.text)
  }

  predicate GoodVectors(p: Policy, vectors: seq<seq<real>>) {
    |vectors| == 1 && |vectors[0]| == p.dimensions && NonZero(vectors[0])
  }

  function TextQuery(p: Policy, r: Ask): Query {
    Query(r.scope, r.text, r.keys, r.kinds, [], r.now, p.exactLimit, if Blank(r.text) then 0 else p.fullTextLimit, 0,
          0.0, "", 0)
  }

  function WithVector(q: Query, p: Policy, vector: seq<real>): Query {
    q.(vector := vector, vectorLimit := p.vectorLimit, minSimilarity := p.minSimilarity, profileID := p.profileID,
       dimensions := p.dimensions)
  }

  /** The query, and whether the vector channel was lost. */
  function QueryFor(p: Policy, r: Ask, embedded: Embedded): Result<(Query, bool), RecallError> {
    var q := TextQuery(p, r);
    if !WantsVector(p, r) then Ok((q, false))
    else match embedded
      case Failure => Err(DependencyFailed)
      case RecoverableFailure => Ok((q, true))
      case Vectors(vs) => if GoodVectors(p, vs) then Ok((WithVector(q, p, vs[0]), false)) else Err(InvalidEmbedding)
  }

  predicate Asks(q: Query) {
    q.exactLimit > 0 || q.fullTextLimit > 0 || q.vectorLimit > 0
  }

  /** A request, an embedding and a query that all pass their checks. */
  predicate Answerable(e: Engine, p: Policy, r: Ask, embedded: Embedded) {
    ValidAsk(p, r) && QueryFor(p, r, embedded).Ok? && ValidQuery(QueryFor(p, r, embedded).value.0, e.env.limits)
  }

  /** A current record of the store: active, effective, in scope and of a wanted kind, with its own sources. */
  predicate Current(s: State, r: Ask, x: Scored) {
    && x.memory.id in s.memories && s.memories[x.memory.id] == x.memory && x.sources == SourcesOf(s, x.memory.id)
    && x.memory.scope == r.scope && x.memory.status == Active && Effective(x.memory, r.now)
    && (r.kinds == [] || x.memory.kind in r.kinds)
  }

  /** What recall promises about its items. */
  ghost predicate Promised(s: State, p: Policy, r: Ask, cost: Cost, xs: seq<Scored>) {
    && (forall i :: 0 <= i < |xs| ==> Current(s, r, xs[i]))
    && Identified(xs) && Sorted(Before, xs) && |xs| <= p.maxItems && Total(xs, cost) <= p.maxTokens
  }

  /** The fusion of everything the store finds; nothing is asked of it when every channel is off. */
  ghost predicate Fused(e: Engine, s: State, p: Policy, q: Query, xs: seq<Scored>)
    requires p.Valid()
  {
    if Asks(q) then Search(e, s, q).Ok? && Fuses(xs, Everything(Search(e, s, q).value), Reciprocal(p.k)) else xs == []
  }

  lemma FusedCurrent(s: State, r: Ask, q: Query, found: CandidateSet, xs: seq<Scored>, w: Weight)
    requires AllFromStore(s, q, found) && Fuses(xs, Everything(found), w)
    requires q.scope == r.scope && q.now == r.now && q.kinds == r.kinds
    ensures forall x :: x in xs ==> Current(s, r, x)
  {
    forall x | x in xs ensures Current(s, r, x) {
      var i :| 0 <= i < |xs| && xs[i] == x;
      assert Stems(xs[i], Everything(found));
      var cs := Everything(found);
      var j :| 0 <= j < |cs| && cs[j].memory == x.memory && cs[j].sources == x.sources;
      assert FromStore(s, q, cs[j]);
    }
  }

  lemma ChosenPromised(s: State, p: Policy, r: Ask, cost: Cost, xs: seq<Scored>, ys: seq<Scored>)
    requires p.Valid() && Sorted(Before, xs) && Identified(xs) && forall x :: x in xs ==> Current(s, r, x)
    requires Pack(xs, cost, p.maxItems, p.maxTokens) == Some(ys)
    ensures Promised(s, p, r, cost, ys)
  {
    PackFits(xs, cost, p.maxItems, p.maxTokens);
    SubsequenceKeeps(ys, xs);
    SubsequenceIn(ys, xs);
    assert forall i :: 0 <= i < |ys| ==> ys[i] in ys;
  }

  /**
   The query asks what the request asked, with the policy's limits: the text channels are off for a blank text, and
   the vector channel is on only with one usable vector for it. Only a lost vector channel degrades the answer; a
   failing or unusable embedding is an error.
   */
  lemma QueryMeans(p: Policy, r: Ask, embedded: Embedded)
    ensures var wants := p.vectorLimit > 0 && !Blank(r.text);
            var usable := embedded.Vectors? && |embedded.vectors| == 1 && |embedded.vectors[0]| == p.dimensions
                          && exists x :: x in embedded.vectors[0] && x != 0.0;
            match QueryFor(p, r, embedded)
            case Err(e) => wants && !usable && !embedded.RecoverableFailure?
                           && e == if embedded.Failure? then DependencyFailed else InvalidEmbedding
            case Ok((q, degraded)) =>
              && (wants ==> usable || embedded.RecoverableFailure?)
              && (degraded <==> wants && embedded.RecoverableFailure?)
              && q.scope == r.scope && q.now == r.now && q.kinds == r.kinds && q.text == r.text && q.keys == r.keys
              && q.exactLimit == p.exactLimit && q.fullTextLimit == (if Blank(r.text) then 0 else p.fullTextLimit)
              && (if wants && usable then
                    && q.vectorLimit == p.vectorLimit && q.vector == embedded.vectors[0]
                    && q.minSimilarity == p.minSimilarity && q.profileID == p.profileID
                    && q.dimensions == p.dimensions
                  else q.vectorLimit == 0 && q.vector == [])
  {
  }

  /** The search, validation and fusion of a recall over the reference store. */
  method Retrieve(e: Engine, s: State, p: Policy, r: Ask, q: Query) returns (xs: Result<seq<Scored>, RecallError>)
    requires e.Valid() && p.Valid() && AllShaped(s.memories) && AllSourcesNamed(s)
    requires q.scope == r.scope && q.now == r.now && q.kinds == r.kinds
    ensures xs.Ok? <==> ValidQuery(q, e.env.limits)
    ensures xs.Err? ==> xs.error == DependencyFailed
    ensures xs.Ok? ==> Fuses(xs.value, Everything(Search(e, s, q).value), Reciprocal(p.k))
    ensures xs.Ok? ==> forall x :: x in xs.value ==> Current(s, r, x)
  {
    var searched := SearchCandidates(e, s, q);
    if searched.Err? {
      return Err(DependencyFailed);
    }
    var found := searched.value;
    StoreResultAccepted(e, s, q);
    var validated := ValidateCandidateSet(found, q);
    var fused := Fuse(validated.value, Reciprocal(p.k));
    FusedCurrent(s, r, q, found, fused, Reciprocal(p.k));
    xs := Ok(fused);
  }

  /**
   Recall over the reference store. It never has to refuse what that store returns. Its items are the packing, within
   both budgets, of the fused list of what the store found: current records of the scope, each once, in fused order.
   The fused list is reported for specification.
   */
  method RecallItems(e: Engine, s: State, p: Policy, r: Ask, embedded: Embedded, cost: Cost)
    returns (result: Result<Recalled, RecallError>, ghost fused: seq<Scored>)
    requires e.Valid() && p.Valid() && AllShaped(s.memories) && AllSourcesNamed(s)
    ensures result.Ok? ==> && ValidAsk(p, r) && Promised(s, p, r, cost, result.value.items)
                           && result.value.degraded == (WantsVector(p, r) && embedded == RecoverableFailure)
    ensures result.Ok? ==> QueryFor(p, r, embedded).Ok? && Fused(e, s, p, QueryFor(p, r, embedded).value.0, fused)
                           && Pack(fused, cost, p.maxItems, p.maxTokens) == Some(result.value.items)
    ensures result.Err? ==> result.error != InvalidResult
    ensures Answerable(e, p, r, embedded) && (forall x :: cost(x) >= 0) ==> result.Ok?
  {
    fused := [];
    if !ValidAsk(p, r) {
      return Err(InvalidRequest), fused;
    }
    var built := QueryFor(p, r, embedded);
    if built.Err? {
      return Err(built.error), fused;
    }
    var q, degraded := built.value.0, built.value.1;
    if !Asks(q) {
      return Ok(Recalled([], degraded)), fused;
    }
    QueryMeans(p, r, embedded);
    var found := Retrieve(e, s, p, r, q);
    if found.Err? {
      return Err(found.error), fused;
    }
    fused := found.value;
    var chosen := Choose(found.value, cost, p.maxItems, p.maxTokens);
    if chosen.None? {
      NegativeSomewhere(found.value, cost, p.maxItems, p.maxTokens);
      return Err(NegativeCost), fused;
    }
    ChosenPromised(s, p, r, cost, found.value, chosen.value);
    result := Ok(Recalled(chosen.value, degraded));
  }

  lemma {:induction false} NegativeSomewhere(xs: seq<Scored>, cost: Cost, slots: nat, tokens: int)
    requires Pack(xs, cost, slots, tokens).None?
    ensures exists x :: cost(x) < 0
  {
    if cost(xs[0]) >= 0 {
      if cost(xs[0]) > tokens {
        NegativeSomewhere(xs[1..], cost, slots, tokens);
      } else {
        NegativeSomewhere(xs[1..], cost, slots - 1, tokens - cost(xs[0]));
      }
    }
  }
}
