/**
 Recall trusts no store: validateCandidateSet checks every candidate and the agreement between
 channels. The reference store is proved to pass it with nothing removed.
 */
module RecallValidate {
  import opened Wrappers
  import opened Text
  import opened Order
  import opened MemoryTypes
  import opened MemoryModel
  import opened MemoryShape
  import opened SearchTerms
  import opened RecallSearch

  // ---- What is accepted ----

  predicate SourceNamed(source: Source) {
    !Blank(source.kind) && !Blank(source.ref)
  }

  predicate SourcesNamed(sources: seq<Source>) {
    forall i :: 0 <= i < |sources| ==> SourceNamed(sources[i])
  }

  function RefsOf(sources: seq<Source>): seq<string> {
    seq(|sources|, i requires 0 <= i < |sources| => sources[i].ref)
  }

  /** normalizedSourceRefs: each reference once, in order. */
  function Refs(sources: seq<Source>): seq<string> {
    Sort(Less, Dedup(RefsOf(sources)))
  }

  predicate CandidateOk(c: Found, channel: Channel, limit: int, q: Query) {
    && c.channel == channel && 0 < c.rank <= limit
    && !Blank(c.memory.id) && c.memory.scope == q.scope && !c.memory.kind.OtherKind? && !c.memory.status.OtherStatus?
    && !Blank(c.memory.key) && !Blank(c.memory.content)
    && ValidScores(c.memory.importance, c.memory.confidence) && c.memory.version > 0
    && ValidRange(c.memory.validFrom, c.memory.validUntil)
    && SourcesNamed(c.sources)
    && (channel == Vector ==> 0.0 <= c.similarity <= 1.0)
  }

  predicate DistinctIDs(cs: seq<Found>) {
    forall i, j :: 0 <= i < j < |cs| ==> cs[i].memory.id != cs[j].memory.id
  }

  predicate AllOk(cs: seq<Found>, channel: Channel, limit: int, q: Query) {
    forall i :: 0 <= i < |cs| ==> CandidateOk(cs[i], channel, limit, q)
  }

  predicate ChannelOk(cs: seq<Found>, channel: Channel, limit: int, enabled: bool, q: Query) {
    (enabled || cs == []) && |cs| <= limit && AllOk(cs, channel, limit, q) && DistinctIDs(cs)
  }

  /** Two candidates with one ID are the same record with the same references. */
  predicate SameRecord(c: Found, d: Found) {
    c.memory.id == d.memory.id ==> c.memory == d.memory && Refs(c.sources) == Refs(d.sources)
  }

  predicate Consistent(cs: seq<Found>) {
    forall i, j :: 0 <= i < |cs| && 0 <= j < |cs| ==> SameRecord(cs[i], cs[j])
  }

  predicate ExactEnabled(q: Query) {
    q.exactLimit > 0 && q.keys != []
  }

  predicate FullTextEnabled(q: Query) {
    q.fullTextLimit > 0 && !Blank(q.text)
  }

  predicate VectorEnabled(q: Query) {
    q.vectorLimit > 0 && q.vector != []
  }

  predicate Acceptable(set_: CandidateSet, q: Query) {
    && ChannelOk(set_.exact, Exact, q.exactLimit, ExactEnabled(q), q)
    && ChannelOk(set_.fullText, FullText, q.fullTextLimit, FullTextEnabled(q), q)
    && ChannelOk(set_.vector, Vector, q.vectorLimit, VectorEnabled(q), q)
    && Consistent(set_.exact + set_.fullText + set_.vector)
  }

  predicate Keeps(c: Found, q: Query) {
    c.memory.status == Active && Effective(c.memory, q.now) && (c.channel == Vector ==> c.similarity >= q.minSimilarity)
  }

  /** Candidates that are no longer current are dropped without complaint. */
  function Kept(cs: seq<Found>, q: Query): seq<Found> {
    if cs == [] then [] else (if Keeps(cs[0], q) then [cs[0]] else []) + Kept(cs[1..], q)
  }

  function Validated(set_: CandidateSet, q: Query): CandidateSet {
    CandidateSet(Kept(set_.exact, q), Kept(set_.fullText, q), Kept(set_.vector, q))
  }

  // ---- The validating loops ----

  datatype Identity = Identity(memory: Memory, refs: seq<string>)

  function IdentityOf(c: Found): Identity {
    Identity(c.memory, Refs(c.sources))
  }

  /** The identities recorded are exactly those of the candidates seen. */
  ghost predicate Records(identities: map<string, Identity>, seen: seq<Found>) {
    && (forall i :: 0 <= i < |seen| ==>
          seen[i].memory.id in identities && identities[seen[i].memory.id] == IdentityOf(seen[i]))
    && (forall id :: id in identities ==> exists i :: 0 <= i < |seen| && seen[i].memory.id == id)
  }

  lemma RecordsConsistent(identities: map<string, Identity>, seen: seq<Found>)
    requires Records(identities, seen)
    ensures Consistent(seen)
  {
  }

  lemma RecordsClash(identities: map<string, Identity>, seen: seq<Found>, c: Found, later: seq<Found>)
    requires Records(identities, seen) && c.memory.id in identities && identities[c.memory.id] != IdentityOf(c)
    ensures !Consistent(seen + [c] + later)
  {
    var i :| 0 <= i < |seen| && seen[i].memory.id == c.memory.id;
    var all := seen + [c] + later;
    assert all[i] == seen[i] && all[|seen|] == c;
    assert !SameRecord(all[i], all[|seen|]);
  }

  lemma RecordsMore(identities: map<string, Identity>, seen: seq<Found>, c: Found)
    requires Records(identities, seen) && (c.memory.id in identities ==> identities[c.memory.id] == IdentityOf(c))
    ensures Records(identities[c.memory.id := IdentityOf(c)], seen + [c])
  {
    var more, all := identities[c.memory.id := IdentityOf(c)], seen + [c];
    forall id | id in more ensures exists i :: 0 <= i < |all| && all[i].memory.id == id {
      if id == c.memory.id {
        assert all[|seen|].memory.id == id;
      } else {
        var i :| 0 <= i < |seen| && seen[i].memory.id == id;
        assert all[i].memory.id == id;
      }
    }
  }

  lemma ConsistentPrefix(a: seq<Found>, b: seq<Found>)
    requires Consistent(a + b)
    ensures Consistent(a)
  {
    forall i, j | 0 <= i < |a| && 0 <= j < |a| ensures SameRecord(a[i], a[j]) {
      assert (a + b)[i] == a[i] && (a + b)[j] == a[j];
    }
  }

  lemma KeptSnoc(cs: seq<Found>, c: Found, q: Query)
    ensures Kept(cs + [c], q) == Kept(cs, q) + (if Keeps(c, q) then [c] else [])
  {
    if cs != [] {
      assert (cs + [c])[0] == cs[0] && (cs + [c])[1..] == cs[1..] + [c];
      KeptSnoc(cs[1..], c, q);
    }
  }

  /** The IDs of the first i candidates, all different. */
  ghost predicate SeenIDs(ids: set<string>, cs: seq<Found>, i: nat)
    requires i <= |cs|
  {
    && (forall k :: 0 <= k < i ==> cs[k].memory.id in ids)
    && (forall id :: id in ids ==> exists k :: 0 <= k < i && cs[k].memory.id == id)
    && (forall k, l :: 0 <= k < l < i ==> cs[k].memory.id != cs[l].memory.id)
  }

  lemma SeenTwice(ids: set<string>, cs: seq<Found>, i: nat)
    requires i < |cs| && SeenIDs(ids, cs, i) && cs[i].memory.id in ids
    ensures !DistinctIDs(cs)
  {
    var k :| 0 <= k < i && cs[k].memory.id == cs[i].memory.id;
  }

  lemma SeenMore(ids: set<string>, cs: seq<Found>, i: nat)
    requires i < |cs| && SeenIDs(ids, cs, i) && cs[i].memory.id !in ids
    ensures SeenIDs(ids + {cs[i].memory.id}, cs, i + 1)
  {
    var more := ids + {cs[i].memory.id};
    forall id | id in more ensures exists k :: 0 <= k < i + 1 && cs[k].memory.id == id {
      if id != cs[i].memory.id {
        var k :| 0 <= k < i && cs[k].memory.id == id;
      }
    }
  }

  /** The next candidate against the identities of those seen before it. */
  method Identify(before: map<string, Identity>, c: Found, ghost seen: seq<Found>, ghost later: seq<Found>)
    returns (ok: bool, identities: map<string, Identity>)
    requires Records(before, seen)
    ensures ok ==> Records(identities, seen + [c])
    ensures !ok ==> !Consistent(seen + [c] + later)
  {
    identities := before;
    if c.memory.id in before {
      if before[c.memory.id] != IdentityOf(c) {
        RecordsClash(before, seen, c, later);
        return false, before;
      }
      assert before[c.memory.id := IdentityOf(c)] == before;
    } else {
      identities := before[c.memory.id := IdentityOf(c)];
    }
    RecordsMore(before, seen, c);
    ok := true;
  }

  method ValidateChannel(cs: seq<Found>, channel: Channel, limit: int, enabled: bool, q: Query,
                         before: map<string, Identity>, ghost seen: seq<Found>)
    returns (kept: Option<seq<Found>>, identities: map<string, Identity>)
    requires Records(before, seen)
    ensures kept.Some? <==> ChannelOk(cs, channel, limit, enabled, q) && Consistent(seen + cs)
    ensures kept.Some? ==> kept.value == Kept(cs, q) && Records(identities, seen + cs)
  {
    identities := before;
    if (!enabled && cs != []) || |cs| > limit {
      return None, identities;
    }
    var ids: set<string> := {};
    var result := [];
    assert seen + cs[..0] == seen;
    for i := 0 to |cs|
      invariant result == Kept(cs[..i], q)
      invariant AllOk(cs[..i], channel, limit, q)
      invariant SeenIDs(ids, cs, i)
      invariant Records(identities, seen + cs[..i])
    {
      var c := cs[i];
      if !CandidateOk(c, channel, limit, q) {
        return None, identities;
      }
      if c.memory.id in ids {
        SeenTwice(ids, cs, i);
        return None, identities;
      }
      OkMore(cs, i, channel, limit, q);
      SeenMore(ids, cs, i);
      ids := ids + {c.memory.id};
      var ok;
      SplitAt(seen, cs, i);
      ok, identities := Identify(identities, c, seen + cs[..i], cs[i + 1..]);
      if !ok {
        return None, identities;
      }
      KeptSnoc(cs[..i], c, q);
      if Keeps(c, q) {
        result := result + [c];
      }
    }
    assert cs[..|cs|] == cs;
    RecordsConsistent(identities, seen + cs);
    kept := Some(result);
  }

  lemma OkMore(cs: seq<Found>, i: nat, channel: Channel, limit: int, q: Query)
    requires i < |cs| && AllOk(cs[..i], channel, limit, q) && CandidateOk(cs[i], channel, limit, q)
    ensures AllOk(cs[..i + 1], channel, limit, q)
  {
    var before, more := cs[..i], cs[..i + 1];
    forall k | 0 <= k < |more| ensures CandidateOk(more[k], channel, limit, q) {
      assert k < i ==> more[k] == before[k];
    }
  }

  lemma SplitAt(seen: seq<Found>, cs: seq<Found>, i: nat)
    requires i < |cs|
    ensures cs[..i + 1] == cs[..i] + [cs[i]] && seen + cs[..i + 1] == (seen + cs[..i]) + [cs[i]]
    ensures (seen + cs[..i]) + [cs[i]] + cs[i + 1..] == seen + cs
  {
  }

  lemma AcceptablePrefixes(found: CandidateSet, q: Query)
    requires Acceptable(found, q)
    ensures Consistent(found.exact) && Consistent(found.exact + found.fullText)
  {
    ConsistentPrefix(found.exact + found.fullText, found.vector);
    ConsistentPrefix(found.exact, found.fullText);
  }

  /** validateCandidateSet. */
  method ValidateCandidateSet(found: CandidateSet, q: Query) returns (r: Option<CandidateSet>)
    ensures r.Some? <==> Acceptable(found, q)
    ensures r.Some? ==> r.value == Validated(found, q)
  {
    if Acceptable(found, q) {
      AcceptablePrefixes(found, q);
    }
    var none: map<string, Identity> := map[];
    assert [] + found.exact == found.exact;
    var exact, first := ValidateChannel(found.exact, Exact, q.exactLimit, ExactEnabled(q), q, none, []);
    if exact.None? {
      return None;
    }
    var fullText, second := ValidateChannel(found.fullText, FullText, q.fullTextLimit, FullTextEnabled(q), q, first,
                                            found.exact);
    if fullText.None? {
      return None;
    }
    var vector, _ := ValidateChannel(found.vector, Vector, q.vectorLimit, VectorEnabled(q), q, second,
                                     found.exact + found.fullText);
    if vector.None? {
      return None;
    }
    r := Some(CandidateSet(exact.value, fullText.value, vector.value));
  }

  // ---- The reference store passes ----

  /** A candidate that is a current record of the store. */
  predicate FromStore(s: State, q: Query, c: Found) {
    && c.memory.id in s.memories && s.memories[c.memory.id] == c.memory && c.sources == SourcesOf(s, c.memory.id)
    && Eligible(q, c.memory)
  }

  predicate AllFromStore(s: State, q: Query, found: CandidateSet) {
    && (forall i :: 0 <= i < |found.exact| ==> FromStore(s, q, found.exact[i]))
    && (forall i :: 0 <= i < |found.fullText| ==> FromStore(s, q, found.fullText[i]))
    && (forall i :: 0 <= i < |found.vector| ==> FromStore(s, q, found.vector[i]))
  }

  predicate AllSourcesNamed(s: State) {
    forall id :: id in s.sources ==> SourcesNamed(s.sources[id])
  }

  predicate PickedFrom(s: State, q: Query, rate: Rating, x: Scored) {
    [x] == Pick(s, q, rate, x.memory.id)
  }

  /**
   What ranking makes of selected memories: all from the store, each once, ranks within the limit, scores as rated.
   */
  lemma RankedFromStore(s: State, q: Query, rate: Rating, xs: seq<Scored>, limit: int, channel: Channel)
    requires 0 <= limit && Identified(xs) && forall x :: x in xs ==> PickedFrom(s, q, rate, x)
    ensures var cs := Ranked(Sort(Before, xs), limit, channel);
            && |cs| <= limit && DistinctIDs(cs) && (xs == [] ==> cs == [])
            && forall i :: 0 <= i < |cs| ==>
                 && FromStore(s, q, cs[i]) && cs[i].channel == channel && 0 < cs[i].rank <= limit
                 && (channel == Vector ==> rate(cs[i].memory) == Some(cs[i].similarity))
  {
    SortPermutes(Before, xs);
    SortKeepsDistinct(Before, (x: Scored) => x.memory.id, xs);
    var ys := Sort(Before, xs);
    var cs := Ranked(ys, limit, channel);
    forall i | 0 <= i < |cs|
      ensures FromStore(s, q, cs[i]) && cs[i].channel == channel && 0 < cs[i].rank <= limit
              && (channel == Vector ==> rate(cs[i].memory) == Some(cs[i].similarity))
    {
      assert ys[i] in xs;
      PickedMeans(s, q, rate, ys[i]);
    }
  }

  lemma PickedMeans(s: State, q: Query, rate: Rating, x: Scored)
    requires PickedFrom(s, q, rate, x)
    ensures && x.memory.id in s.memories && s.memories[x.memory.id] == x.memory
    ensures x.sources == SourcesOf(s, x.memory.id)
            && Eligible(q, x.memory) && rate(x.memory) == Some(x.score)
  {
    assert x == Pick(s, q, rate, x.memory.id)[0];
  }

  lemma FromStoreOk(s: State, q: Query, c: Found, channel: Channel, limit: int)
    requires AllShaped(s.memories) && AllSourcesNamed(s) && FromStore(s, q, c) && c.channel == channel
    requires 0 < c.rank <= limit
    requires channel == Vector ==> q.minSimilarity <= c.similarity <= 1.0 && 0.0 <= q.minSimilarity
    ensures CandidateOk(c, channel, limit, q) && Keeps(c, q)
  {
    assert Shaped(s.memories[c.memory.id]);
  }

  lemma {:induction false} AllKept(cs: seq<Found>, q: Query)
    requires forall i :: 0 <= i < |cs| ==> Keeps(cs[i], q)
    ensures Kept(cs, q) == cs
  {
    if cs != [] {
      AllKept(cs[1..], q);
    }
  }

  lemma {:induction false} BlankReadsNothing(u: Unicode, text: string)
    requires Blank(text) && forall c :: IsSpace(c) ==> !u.cjk(c) && !u.alnum(c)
    ensures WordsRead(u, text) == [] && GramsRead(u, text) == [] && Tail(u.Word, text) == "" && Tail(u.cjk, text) == ""
  {
    if text != "" {
      assert text[|text| - 1] in text;
      BlankReadsNothing(u, text[..|text| - 1]);
    }
  }

  lemma BlankMatchesNothing(e: Engine, q: Query, m: Memory)
    requires e.Valid() && Blank(q.text)
    ensures TextRating(e, q)(m).None?
  {
    BlankReadsNothing(e.unicode, q.text);
  }

  lemma {:induction false} SelectedNone(s: State, q: Query, rate: Rating, ids: seq<string>)
    requires forall m :: rate(m).None?
    ensures Selected(s, q, rate, ids) == []
  {
    if ids != [] {
      SelectedNone(s, q, rate, ids[1..]);
    }
  }

  ghost predicate ChannelFine(s: State, q: Query, cs: seq<Found>, channel: Channel, limit: int, enabled: bool) {
    && ChannelOk(cs, channel, limit, enabled, q) && Kept(cs, q) == cs
    && forall i :: 0 <= i < |cs| ==> FromStore(s, q, cs[i])
  }

  /** A ranked channel passes, with nothing dropped. */
  lemma RankedPasses(s: State, q: Query, rate: Rating, xs: seq<Scored>, channel: Channel, limit: int, enabled: bool)
    requires AllShaped(s.memories) && AllSourcesNamed(s)
    requires 0 <= limit && Identified(xs) && forall x :: x in xs ==> PickedFrom(s, q, rate, x)
    requires enabled || xs == []
    requires channel == Vector ==>
               && 0.0 <= q.minSimilarity
               && forall m :: rate(m).Some? ==> q.minSimilarity <= rate(m).value <= 1.0
    ensures ChannelFine(s, q, Ranked(Sort(Before, xs), limit, channel), channel, limit, enabled)
  {
    var cs := Ranked(Sort(Before, xs), limit, channel);
    RankedFromStore(s, q, rate, xs, limit, channel);
    forall i | 0 <= i < |cs| ensures CandidateOk(cs[i], channel, limit, q) && Keeps(cs[i], q) {
      FromStoreOk(s, q, cs[i], channel, limit);
    }
    AllKept(cs, q);
  }

  lemma StoreConsistent(s: State, q: Query, cs: seq<Found>)
    requires forall i :: 0 <= i < |cs| ==> FromStore(s, q, cs[i])
    ensures Consistent(cs)
  {
    forall i, j | 0 <= i < |cs| && 0 <= j < |cs| ensures SameRecord(cs[i], cs[j]) {
      assert FromStore(s, q, cs[i]) && FromStore(s, q, cs[j]);
    }
  }

  lemma ExactPasses(e: Engine, s: State, q: Query, ids: seq<string>)
    requires AllShaped(s.memories) && AllSourcesNamed(s) && Unique(ids) && q.exactLimit >= 0
    ensures ChannelFine(s, q, Ranked(Sort(Before, Selected(s, q, ExactRating(q), ids)), q.exactLimit, Exact), Exact,
                        q.exactLimit, ExactEnabled(q))
  {
    SelectedIs(s, q, ExactRating(q), ids);
    if !ExactEnabled(q) {
      SelectedNone(s, q, ExactRating(q), ids);
    }
    RankedPasses(s, q, ExactRating(q), Selected(s, q, ExactRating(q), ids), Exact, q.exactLimit, ExactEnabled(q));
  }

  lemma FullTextPasses(e: Engine, s: State, q: Query, ids: seq<string>)
    requires e.Valid() && AllShaped(s.memories) && AllSourcesNamed(s) && Unique(ids) && q.fullTextLimit >= 0
    ensures ChannelFine(s, q, Ranked(Sort(Before, Cutoff(Selected(s, q, TextRating(e, q), ids))), q.fullTextLimit,
                                     FullText),
                        FullText, q.fullTextLimit, FullTextEnabled(q))
  {
    var rate := TextRating(e, q);
    var xs := Selected(s, q, rate, ids);
    SelectedIs(s, q, rate, ids);
    CutoffIs(Best(xs), xs);
    if !FullTextEnabled(q) {
      forall m ensures rate(m).None? {
        if q.fullTextLimit > 0 {
          BlankMatchesNothing(e, q, m);
        }
      }
      SelectedNone(s, q, rate, ids);
    }
    RankedPasses(s, q, rate, Cutoff(xs), FullText, q.fullTextLimit, FullTextEnabled(q));
  }

  lemma VectorRatingBounded(e: Engine, s: State, q: Query)
    requires e.Valid()
    ensures forall m :: VectorRating(e, s, q)(m).Some? ==> q.minSimilarity <= VectorRating(e, s, q)(m).value <= 1.0
  {
    forall m | VectorRating(e, s, q)(m).Some?
      ensures q.minSimilarity <= VectorRating(e, s, q)(m).value <= 1.0
    {
      var x := s.embeddings[(m.id, q.profileID)];
      assert e.similarity(q.vector, x.vector) == VectorRating(e, s, q)(m);
    }
  }

  lemma VectorPasses(e: Engine, s: State, q: Query, ids: seq<string>)
    requires e.Valid() && AllShaped(s.memories) && AllSourcesNamed(s) && Unique(ids) && ValidQuery(q, e.env.limits)
    ensures ChannelFine(s, q, Ranked(Sort(Before, Selected(s, q, VectorRating(e, s, q), ids)), q.vectorLimit, Vector),
                        Vector, q.vectorLimit, VectorEnabled(q))
  {
    var rate := VectorRating(e, s, q);
    SelectedIs(s, q, rate, ids);
    if !VectorEnabled(q) {
      SelectedNone(s, q, rate, ids);
    }
    VectorRatingBounded(e, s, q);
    RankedPasses(s, q, rate, Selected(s, q, rate, ids), Vector, q.vectorLimit, VectorEnabled(q));
  }

  /** Whatever the reference store returns, recall accepts it unchanged. */
  lemma StoreResultAccepted(e: Engine, s: State, q: Query)
    requires e.Valid() && AllShaped(s.memories) && AllSourcesNamed(s) && Search(e, s, q).Ok?
    ensures var found := Search(e, s, q).value;
            Acceptable(found, q) && Validated(found, q) == found && AllFromStore(s, q, found)
  {
    var ids := Walk(s.memories.Keys);
    WalkIs(s.memories.Keys);
    ExactPasses(e, s, q, ids);
    FullTextPasses(e, s, q, ids);
    VectorPasses(e, s, q, ids);
    FineAccepted(s, q, Search(e, s, q).value);
  }

  lemma FineAccepted(s: State, q: Query, found: CandidateSet)
    requires ChannelFine(s, q, found.exact, Exact, q.exactLimit, ExactEnabled(q))
    requires ChannelFine(s, q, found.fullText, FullText, q.fullTextLimit, FullTextEnabled(q))
    requires ChannelFine(s, q, found.vector, Vector, q.vectorLimit, VectorEnabled(q))
    ensures Acceptable(found, q) && Validated(found, q) == found && AllFromStore(s, q, found)
  {
    StoreConsistent(s, q, found.exact + found.fullText + found.vector);
  }
}
