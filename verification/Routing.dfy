/**
 Routing on a health snapshot: candidates are enriched with what the snapshot says, filtered,
 ranked and chosen. A candidate that passes the filter is admitted by the store's own atomic
 check if nothing happened in between.
 */
module Routing {
  import opened Wrappers
  import opened Order
  import opened Health

  datatype Complexity = SimpleTask | MediumTask | HardTask | OtherTask(text: string)

  datatype Profile = Profile(complexity: Complexity, localOnly: bool, needsJSON: bool, needsTools: bool,
                             needsLongContext: bool, maxEstimatedCents: int)

  function CapabilityRank(l: CapabilityLevel): nat {
    match l case AdvancedLevel => 3 case BalancedLevel => 2 case SimpleLevel => 1 case OtherLevel(_) => 0
  }

  function RequiredRank(c: Complexity): nat {
    match c case HardTask => 3 case MediumTask => 2 case _ => 1
  }

  predicate Matches(m: Model, p: Profile) {
    && (p.localOnly ==> m.isLocal)
    && (p.needsJSON ==> m.supportsJSON)
    && (p.needsTools ==> m.supportsTools)
    && (p.needsLongContext ==> m.contextWindow == LongContext)
    && CapabilityRank(m.capability) >= RequiredRank(p.complexity)
    && (m.maxConcurrency > 0 ==> m.currentConcurrency < m.maxConcurrency)
  }

  datatype Reason = AccountRateLimited | AccountConcurrencyFull | ProviderInCooldown | ProviderUnavailable
                  | RecoveryProbeInFlight | ProviderQuotaExhausted | ProviderConcurrencyFull
                  | CostExceedsBudget | ModelMismatch

  function UnavailableReason(p: Profile, c: Candidate, now: Time): Option<Reason> {
    if c.accountRateLimited then Some(AccountRateLimited)
    else if c.accountMaxConcurrency > 0 && c.accountCurrentConcurrency >= c.accountMaxConcurrency then
      Some(AccountConcurrencyFull)
    else if c.providerCooldownUntil != ZERO_TIME && now < c.providerCooldownUntil then Some(ProviderInCooldown)
    else if c.providerAvailability == Unavailable && c.providerCooldownUntil == ZERO_TIME then Some(ProviderUnavailable)
    else if c.providerAvailability == Unavailable && c.providerInFlight > 0 then Some(RecoveryProbeInFlight)
    else if c.providerQuotaExhausted || c.providerQuotaRemaining < 0 then Some(ProviderQuotaExhausted)
    else if c.providerMaxConcurrency > 0 && c.providerInFlight >= c.providerMaxConcurrency then
      Some(ProviderConcurrencyFull)
    else if p.maxEstimatedCents > 0 && c.model.estimatedCents > p.maxEstimatedCents then Some(CostExceedsBudget)
    else if !Matches(c.model, p) then Some(ModelMismatch)
    else None
  }

  /** The model can do what the profile asks: hard work takes an advanced model, medium work at least a balanced one. */
  predicate Capable(m: Model, p: Profile) {
    && (!p.localOnly || m.isLocal) && (!p.needsTools || m.supportsTools) && (!p.needsJSON || m.supportsJSON)
    && (!p.needsLongContext || m.contextWindow == LongContext)
    && match p.complexity
       case HardTask => m.capability == AdvancedLevel
       case MediumTask => m.capability in {BalancedLevel, AdvancedLevel}
       case _ => m.capability in {SimpleLevel, BalancedLevel, AdvancedLevel}
  }

  /** The candidate's account, provider and model have room for one more call, and its circuit lets it through. */
  predicate HasRoom(c: Candidate, now: Time) {
    && !c.accountRateLimited && (c.accountMaxConcurrency <= 0 || c.accountCurrentConcurrency < c.accountMaxConcurrency)
    && (c.providerMaxConcurrency <= 0 || c.providerInFlight < c.providerMaxConcurrency)
    && (c.model.maxConcurrency <= 0 || c.model.currentConcurrency < c.model.maxConcurrency)
    && !c.providerQuotaExhausted && c.providerQuotaRemaining >= 0
    && (c.providerCooldownUntil == ZERO_TIME || now >= c.providerCooldownUntil)
    && (c.providerAvailability == Unavailable ==> c.providerCooldownUntil != ZERO_TIME && c.providerInFlight <= 0)
  }

  /** The candidate can serve the profile now: it is capable, has room, and costs no more than allowed. */
  predicate Serves(p: Profile, c: Candidate, now: Time) {
    && Capable(c.model, p) && HasRoom(c, now)
    && (p.maxEstimatedCents <= 0 || c.model.estimatedCents <= p.maxEstimatedCents)
  }

  /** The filter lets through exactly the candidates that can serve the profile. */
  lemma FilterMeans(p: Profile, c: Candidate, now: Time)
    ensures UnavailableReason(p, c, now).None? <==> Serves(p, c, now)
  {
  }

  /** What a snapshot entry says about a candidate. */
  function WithEntry(c: Candidate, e: Entry): Candidate {
    c.(providerAvailability := Normalized(e.availability), providerInFlight := e.inFlight,
       model := c.model.(currentConcurrency := e.inFlight), providerMaxConcurrency := e.maxConcurrency,
       providerQuotaRemaining := e.quotaRemaining, providerQuotaExhausted := e.quotaExhausted,
       providerFailureStreak := e.failureStreak, providerCooldownUntil := e.cooldownUntil)
  }

  ghost function Enriched(snapshot: map<string, Entry>, c: Candidate): Candidate {
    if snapshot == map[] then c
    else
      var who := IdentOf(c);
      var counted := c.(accountCurrentConcurrency := AccountTotal(snapshot, who.account));
      if who.key in snapshot then WithEntry(counted, snapshot[who.key]) else counted
  }

  function Count(totals: map<string, int>, account: string): int {
    if account in totals then totals[account] else 0
  }

  method AccountTotals(snapshot: map<string, Entry>) returns (totals: map<string, int>)
    ensures forall a :: Count(totals, a) == AccountTotal(snapshot, a)
  {
    totals := map[];
    var rest := snapshot;
    while rest != map[]
      invariant forall a :: Count(totals, a) + AccountTotal(rest, a) == AccountTotal(snapshot, a)
      decreases |rest|
    {
      var k :| k in rest;
      var account := rest[k].accountAlias;
      ghost var before := totals;
      totals := totals[account := Count(totals, account) + rest[k].inFlight];
      forall a
        ensures Count(totals, a) + AccountTotal(rest - {k}, a) == AccountTotal(snapshot, a)
      {
        TotalRemove(rest, a, k);
        assert Count(before, a) + AccountTotal(rest, a) == AccountTotal(snapshot, a);
      }
      rest := rest - {k};
    }
  }

  method ApplyProviderHealth(snapshot: map<string, Entry>, candidates: seq<Candidate>)
    returns (enriched: seq<Candidate>)
    ensures |enriched| == |candidates|
    ensures forall i :: 0 <= i < |candidates| ==> enriched[i] == Enriched(snapshot, candidates[i])
  {
    enriched := candidates;
    if snapshot == map[] {
      return;
    }
    var totals := AccountTotals(snapshot);
    for i := 0 to |candidates|
      invariant |enriched| == |candidates|
      invariant forall j :: 0 <= j < i ==> enriched[j] == Enriched(snapshot, candidates[j])
      invariant forall j :: i <= j < |candidates| ==> enriched[j] == candidates[j]
    {
      var who := IdentOf(enriched[i]);
      var c := enriched[i].(accountCurrentConcurrency := Count(totals, who.account));
      if who.key in snapshot {
        c := WithEntry(c, snapshot[who.key]);
      }
      enriched := enriched[i := c];
    }
  }

  /** Settling an entry does not change what is in flight, so a snapshot counts the same calls. */
  lemma SnapshotTotal(p: Policy, entries: map<string, Entry>, now: Time, account: string)
    ensures AccountTotal(SnapshotOf(p, entries, now), account) == AccountTotal(entries, account)
  {
    TotalSame(SnapshotOf(p, entries, now), entries, account);
  }

  /** Whether Acquire settles before or after normalising, it decides on what the snapshot showed. */
  lemma PreparedIsSnapshot(p: Policy, entries: map<string, Entry>, who: Ident, now: Time)
    ensures var e, s := Prepared(p, entries, who, now), Settle(p, Stored(entries, who.key), now);
            && e.availability == Normalized(s.availability) && e.inFlight == s.inFlight
            && e.maxConcurrency == s.maxConcurrency && e.cooldownUntil == s.cooldownUntil
            && e.quotaRemaining == s.quotaRemaining && e.quotaExhausted == s.quotaExhausted
  {
  }

  /** A candidate that shows an entry's state and passes the filter is not blocked by that entry. */
  lemma FilterCoversEntry(profile: Profile, c: Candidate, s: Entry, e: Entry, now: Time)
    requires UnavailableReason(profile, WithEntry(c, s), now).None?
    requires e.availability == Normalized(s.availability) && e.inFlight == s.inFlight
    requires e.maxConcurrency == s.maxConcurrency && e.cooldownUntil == s.cooldownUntil
    requires e.quotaRemaining == s.quotaRemaining && e.quotaExhausted == s.quotaExhausted
    ensures EntryBlock(e, WithEntry(c, s), now).None?
  {
  }

  /** For arbitrary store contents: what passes the filter on a fresh snapshot is admitted by Acquire. */
  lemma FilteredIsAdmitted(p: Policy, entries: map<string, Entry>, profile: Profile, c: Candidate, now: Time)
    requires UnavailableReason(profile, Enriched(SnapshotOf(p, entries, now), c), now).None?
    ensures var chosen := Enriched(SnapshotOf(p, entries, now), c);
            IdentOf(chosen) == IdentOf(c) && Admits(p, entries, IdentOf(chosen), chosen, now)
  {
    var snapshot, who := SnapshotOf(p, entries, now), IdentOf(c);
    var counted := c.(accountCurrentConcurrency := AccountTotal(snapshot, who.account));
    SnapshotTotal(p, entries, now, who.account);
    assert snapshot.Keys == entries.Keys;
    if snapshot == map[] {
      assert entries == map[];
    }
    PreparedIsSnapshot(p, entries, who, now);
    if who.key in entries {
      FilterCoversEntry(profile, counted, snapshot[who.key], Prepared(p, entries, who, now), now);
    }
  }

  // ---- selection ------------------------------------------------------------------------------------

  /** Load spread: the score tolerance and the two random draws, each below its bound. */
  datatype Spread = Spread(tolerance: int, first: nat -> nat, second: nat -> nat) {
    ghost predicate Valid() {
      forall n :: n > 0 ==> first(n) < n && second(n) < n
    }
  }

  function Tolerance(spread: Option<Spread>): nat {
    if spread.Some? && spread.value.tolerance > 0 then spread.value.tolerance else 0
  }

  predicate Near(score: Candidate -> int, best: Candidate, tolerance: nat, c: Candidate) {
    score(c) >= score(best) - tolerance
  }

  /** The pool of a ranked list: its leading positions within the tolerance of the best. */
  predicate IsPool(ranked: seq<Candidate>, score: Candidate -> int, tolerance: nat, pool: nat)
    requires ranked != []
  {
    && 1 <= pool <= |ranked|
    && forall i :: 0 <= i < |ranked| ==> (i < pool <==> Near(score, ranked[0], tolerance, ranked[i]))
  }

  /** The second draw skips the first position. */
  function SecondDraw(spread: Spread, pool: nat): nat
    requires pool >= 2
  {
    if spread.second(pool - 1) >= spread.first(pool) then spread.second(pool - 1) + 1 else spread.second(pool - 1)
  }

  /** The less loaded of the two drawn positions, the first drawn on a tie. */
  predicate Lighter(ranked: seq<Candidate>, spread: Spread, pool: nat, chosen: Candidate)
    requires 2 <= pool <= |ranked|
  {
    && spread.first(pool) < pool && SecondDraw(spread, pool) < pool && spread.first(pool) != SecondDraw(spread, pool)
    && var first, second := ranked[spread.first(pool)], ranked[SecondDraw(spread, pool)];
    if second.providerInFlight < first.providerInFlight then chosen == second else chosen == first
  }

  /** Power of two choices among the candidates within the tolerance of the best. */
  method Choose(ranked: seq<Candidate>, score: Candidate -> int, spread: Spread)
    returns (chosen: Candidate, ghost pool: nat)
    requires ranked != [] && spread.Valid()
    requires forall i, j :: 0 <= i < j < |ranked| ==> score(ranked[i]) >= score(ranked[j])
    ensures IsPool(ranked, score, if spread.tolerance > 0 then spread.tolerance else 0, pool)
    ensures chosen in ranked && Near(score, ranked[0], Tolerance(Some(spread)), chosen)
    ensures if pool == 1 then chosen == ranked[0] else Lighter(ranked, spread, pool, chosen)
  {
    var tolerance := Tolerance(Some(spread));
    var n := 1;
    while n < |ranked| && score(ranked[n]) >= score(ranked[0]) - tolerance
      invariant 1 <= n <= |ranked|
      invariant forall i :: 0 <= i < n ==> Near(score, ranked[0], tolerance, ranked[i])
    {
      n := n + 1;
    }
    pool := n;
    if n < 2 {
      return ranked[0], pool;
    }
    var first := spread.first(n);
    var second := spread.second(n - 1);
    if second >= first {
      second := second + 1;
    }
    chosen := ranked[first];
    var other := ranked[second];
    if other.providerInFlight < chosen.providerInFlight {
      chosen, other := other, chosen;
    }
  }

  /** Best score first; ties by the stable candidate key. */
  predicate Better(score: Candidate -> int, key: Candidate -> string, a: Candidate, b: Candidate) {
    score(a) > score(b) || (score(a) == score(b) && Less(key(a), key(b)))
  }

  lemma BetterOrder(score: Candidate -> int, key: Candidate -> string)
    ensures StrictOrder((a, b) => Better(score, key, a, b))
  {
    forall a, b
      ensures Better(score, key, a, b) ==> !Better(score, key, b, a)
    {
      LessTotal(key(a), key(b));
    }
    forall a, b, c | !Better(score, key, b, a) && !Better(score, key, c, b)
      ensures !Better(score, key, c, a)
    {
      if score(a) == score(b) == score(c) && Less(key(c), key(a)) {
        LessTotal(key(a), key(b));
        LessTotal(key(b), key(c));
        LessTotal(key(a), key(c));
        if Less(key(a), key(b)) && Less(key(b), key(c)) {
          LessTransitive(key(a), key(b), key(c));
        }
      }
    }
  }

  /** The candidate as a snapshot of the store shows it. */
  ghost function Shown(policy: Policy, entries: map<string, Entry>, c: Candidate, now: Time): Candidate {
    Enriched(SnapshotOf(policy, entries, now), c)
  }

  /** Every candidate as the snapshot shows it, in order. */
  ghost predicate ShowsAll(policy: Policy, entries: map<string, Entry>, candidates: seq<Candidate>, now: Time,
                           shown: seq<Candidate>) {
    |shown| == |candidates| && forall i :: 0 <= i < |shown| ==> shown[i] == Shown(policy, entries, candidates[i], now)
  }

  /** None if nothing shown is available, else something available within the tolerance of all that is. */
  ghost predicate Selects(p: Profile, shown: seq<Candidate>, now: Time, score: Candidate -> int, tolerance: nat,
                          r: Option<Candidate>) {
    && (r.None? <==> forall c :: c in shown ==> !Serves(p, c, now))
    && (r.Some? ==> r.value in shown && Serves(p, r.value, now))
    && (r.Some? ==> forall c :: c in shown && Serves(p, c, now) ==> score(r.value) >= score(c) - tolerance)
  }

  /** An available candidate scoring within the tolerance of the best one, or an error if none is available. */
  method Select(p: Profile, candidates: seq<Candidate>, now: Time, score: Candidate -> int, key: Candidate -> string,
                spread: Option<Spread>)
    returns (r: Option<Candidate>)
    requires spread.Some? ==> spread.value.Valid()
    ensures Selects(p, candidates, now, score, Tolerance(spread), r)
    ensures r.Some? && spread.None? ==> forall c :: c in candidates && Serves(p, c, now) ==>
                                          score(c) <= score(r.value)
                                          && (score(c) == score(r.value) ==> !Less(key(c), key(r.value)))
  {
    var available := [];
    for i := 0 to |candidates|
      invariant forall c :: c in available <==> c in candidates[..i] && Serves(p, c, now)
    {
      FilterMeans(p, candidates[i], now);
      if UnavailableReason(p, candidates[i], now).None? {
        available := available + [candidates[i]];
      }
    }
    assert candidates[..|candidates|] == candidates;
    if available == [] {
      return None;
    }
    var better := (a, b) => Better(score, key, a, b);
    var ranked := Sort(better, available);
    SortPermutes(better, available);
    BetterOrder(score, key);
    SortSorts(better, available);
    assert forall i, j :: 0 <= i < j < |ranked| ==> !better(ranked[j], ranked[i]);
    forall c | c in available
      ensures score(c) <= score(ranked[0]) && !Better(score, key, c, ranked[0])
    {
      assert c in ranked;
      LessTotal(key(c), key(c));
    }
    assert ranked[0] in ranked;
    if spread.Some? {
      var chosen, _ := Choose(ranked, score, spread.value);
      return Some(chosen);
    }
    return Some(ranked[0]);
  }

  /** Snapshot, enrich, select, acquire: with no event in between, the selected candidate is admitted. */
  method Route(store: MemoryHealthStore, p: Profile, candidates: seq<Candidate>, now: Time, score: Candidate -> int,
               key: Candidate -> string, spread: Option<Spread>)
    returns (r: Option<Candidate>)
    requires store.Valid() && (spread.Some? ==> spread.value.Valid())
    modifies store
    ensures exists shown :: ShowsAll(store.policy, old(store.entries), candidates, now, shown) &&
                            Selects(p, shown, now, score, Tolerance(spread), r)
    ensures r.Some? ==> Admits(store.policy, old(store.entries), IdentOf(r.value), r.value, now)
    ensures store.entries ==
            if r.Some? then Admitted(store.policy, old(store.entries), IdentOf(r.value), now) else old(store.entries)
  {
    var snapshot := store.Snapshot(now);
    var enriched := ApplyProviderHealth(snapshot, candidates);
    r := Select(p, enriched, now, score, key, spread);
    assert ShowsAll(store.policy, store.entries, candidates, now, enriched);
    if r.Some? {
      var i :| 0 <= i < |enriched| && enriched[i] == r.value;
      FilterMeans(p, r.value, now);
      FilteredIsAdmitted(store.policy, store.entries, p, candidates[i], now);
      var block := store.Acquire(r.value, now);
      assert block.None?;
    }
  }
}
