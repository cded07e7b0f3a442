/**
 Provider health: the circuit breaker with half-open probing, concurrency accounting, and the
 in-memory health store.
 */
module Health {
  import opened Wrappers
  import opened Text
  import opened Doubling

  type Time = int
  const ZERO_TIME: Time := 0

  datatype Availability = Unset | Available | Degraded | Unavailable | OtherAvailability(text: string)

  datatype Entry = Entry(accountAlias: string, modelAlias: string, provider: string,
                         availability: Availability, inFlight: int, maxConcurrency: int,
                         quotaRemaining: int, quotaExhausted: bool, failureStreak: int,
                         lastFailureAt: Time, cooldownUntil: Time, updatedAt: Time)

  const ZERO_ENTRY := Entry("", "", "", Unset, 0, 0, 0, false, 0, ZERO_TIME, ZERO_TIME, ZERO_TIME)

  datatype CapabilityLevel = SimpleLevel | BalancedLevel | AdvancedLevel | OtherLevel(text: string)
  datatype ContextClass = ShortContext | MediumContext | LongContext | OtherContext(text: string)

  datatype Model = Model(alias: string, provider: string, isLocal: bool, capability: CapabilityLevel,
                         supportsTools: bool, supportsJSON: bool, contextWindow: ContextClass,
                         estimatedCents: int, maxConcurrency: int, currentConcurrency: int)

  datatype Candidate = Candidate(
    model: Model, accountAlias: string, accountRateLimited: bool,
    accountMaxConcurrency: int, accountCurrentConcurrency: int,
    providerAvailability: Availability, providerInFlight: int, providerMaxConcurrency: int,
    providerQuotaRemaining: int, providerQuotaExhausted: bool, providerFailureStreak: int,
    providerCooldownUntil: Time)

  /**
   Durations are in seconds. Policy as NewMemoryHealthStore completes it: a positive threshold and cooldown, and a cap
   not below it.
   */
  datatype Policy = Policy(threshold: int, cooldown: int, maxCooldown: int) {
    predicate Valid() {
      threshold > 0 && cooldown > 0 && maxCooldown >= cooldown
    }
  }

  function NewPolicy(threshold: int, cooldown: int, maxCooldown: int): Policy {
    var t := if threshold <= 0 then 3 else threshold;
    var c := if cooldown <= 0 then 60 else cooldown;
    Policy(t, c, if maxCooldown < c then 32 * c else maxCooldown)
  }

  function HealthKey(account: string, model: string, provider: string): string {
    Trim(account) + "|" + Trim(model) + "|" + Trim(provider)
  }

  /** The trimmed identity of a candidate or outcome, and the key it is stored under. */
  datatype Ident = Ident(key: string, account: string, model: string, provider: string)

  function IdentOf(c: Candidate): Ident {
    Ident(HealthKey(c.accountAlias, c.model.alias, c.model.provider),
          Trim(c.accountAlias), Trim(c.model.alias), Trim(c.model.provider))
  }

  function Normalized(a: Availability): Availability {
    if a == Unset then Available else a
  }

  function WithIdentity(e: Entry, who: Ident): Entry {
    e.(accountAlias := if e.accountAlias == "" then who.account else e.accountAlias,
       modelAlias := if e.modelAlias == "" then who.model else e.modelAlias,
       provider := if e.provider == "" then who.provider else e.provider)
  }

  /** Forgets a failure streak that ended a cooldown ago without opening the circuit. */
  function Settle(p: Policy, e: Entry, now: Time): Entry {
    if e.availability == Degraded && e.lastFailureAt != ZERO_TIME && now - e.lastFailureAt >= p.cooldown
    then e.(availability := Available, failureStreak := 0) else e
  }

  function Stored(entries: map<string, Entry>, key: string): Entry {
    if key in entries then entries[key] else ZERO_ENTRY
  }

  // ---- account totals ---------------------------------------------------------------------------

  function Share(e: Entry, account: string): int {
    if e.accountAlias == account then e.inFlight else 0
  }

  /** Calls in flight over all entries of an account. */
  ghost function AccountTotal(entries: map<string, Entry>, account: string): int
    decreases |entries|
  {
    if entries == map[] then 0
    else
      var k :| k in entries;
      Share(entries[k], account) + AccountTotal(entries - {k}, account)
  }

  lemma {:induction false} TotalRemove(entries: map<string, Entry>, account: string, k: string)
    requires k in entries
    ensures AccountTotal(entries, account) == Share(entries[k], account) + AccountTotal(entries - {k}, account)
    decreases |entries|
  {
    var j :| j in entries &&
             AccountTotal(entries, account) == Share(entries[j], account) + AccountTotal(entries - {j}, account);
    if j != k {
      TotalRemove(entries - {j}, account, k);
      TotalRemove(entries - {k}, account, j);
      assert entries - {j} - {k} == entries - {k} - {j};
    }
  }

  lemma TotalUpdate(entries: map<string, Entry>, account: string, k: string, e: Entry)
    ensures AccountTotal(entries[k := e], account) ==
            AccountTotal(entries, account) + Share(e, account)
            - (if k in entries then Share(entries[k], account) else 0)
  {
    TotalRemove(entries[k := e], account, k);
    if k in entries {
      TotalRemove(entries, account, k);
      assert entries[k := e] - {k} == entries - {k};
    } else {
      assert entries[k := e] - {k} == entries;
    }
  }

  lemma {:induction false} TotalSame(a: map<string, Entry>, b: map<string, Entry>, account: string)
    requires a.Keys == b.Keys
    requires forall k :: k in a ==> a[k].accountAlias == b[k].accountAlias && a[k].inFlight == b[k].inFlight
    ensures AccountTotal(a, account) == AccountTotal(b, account)
    decreases |a|
  {
    if a == map[] {
      assert b == map[];
    } else {
      var k :| k in a;
      TotalRemove(a, account, k);
      TotalRemove(b, account, k);
      TotalSame(a - {k}, b - {k}, account);
    }
  }

  method SumAccount(entries: map<string, Entry>, account: string) returns (total: int)
    ensures total == AccountTotal(entries, account)
  {
    total := 0;
    var rest := entries;
    while rest != map[]
      invariant total + AccountTotal(rest, account) == AccountTotal(entries, account)
      decreases |rest|
    {
      var k :| k in rest;
      TotalRemove(rest, account, k);
      if rest[k].accountAlias == account {
        total := total + rest[k].inFlight;
      }
      rest := rest - {k};
    }
  }

  // ---- admission ----------------------------------------------------------------------------------

  datatype Block = InCooldown | IsUnavailable | ProbeInFlight | QuotaExhausted | ProviderFull | AccountFull

  function EntryBlock(e: Entry, c: Candidate, now: Time): Option<Block> {
    if e.cooldownUntil != ZERO_TIME && now < e.cooldownUntil then Some(InCooldown)
    else if e.availability == Unavailable && e.cooldownUntil == ZERO_TIME then Some(IsUnavailable)
    else if e.availability == Unavailable && e.inFlight > 0 then Some(ProbeInFlight)
    else if e.quotaExhausted || e.quotaRemaining < 0 then Some(QuotaExhausted)
    else
      var limit := if e.maxConcurrency <= 0 then c.model.maxConcurrency else e.maxConcurrency;
      if limit > 0 && e.inFlight >= limit then Some(ProviderFull) else None
  }

  ghost function AdmissionBlock(entries: map<string, Entry>, e: Entry, who: Ident, c: Candidate, now: Time)
    : Option<Block>
  {
    if EntryBlock(e, c, now).Some? then EntryBlock(e, c, now)
    else if c.accountMaxConcurrency > 0 && AccountTotal(entries, who.account) >= c.accountMaxConcurrency
    then Some(AccountFull) else None
  }

  /** The entry Acquire decides on: identified, normalised and settled. */
  function Prepared(p: Policy, entries: map<string, Entry>, who: Ident, now: Time): Entry {
    var e := WithIdentity(Stored(entries, who.key), who);
    Settle(p, e.(availability := Normalized(e.availability)), now)
  }

  ghost predicate Admits(p: Policy, entries: map<string, Entry>, who: Ident, c: Candidate, now: Time) {
    AdmissionBlock(entries, Prepared(p, entries, who, now), who, c, now).None?
  }

  function Admitted(p: Policy, entries: map<string, Entry>, who: Ident, now: Time): map<string, Entry> {
    var e := Prepared(p, entries, who, now);
    entries[who.key := e.(inFlight := e.inFlight + 1, updatedAt := now)]
  }

  function Closed(e: Entry): Entry {
    e.(inFlight := if e.inFlight > 0 then e.inFlight - 1 else e.inFlight)
  }

  function Released(entries: map<string, Entry>, who: Ident, now: Time): map<string, Entry> {
    if who.key in entries then entries[who.key := Closed(entries[who.key]).(updatedAt := now)] else entries
  }

  /** The cooldown of a streak: doubled with every failure past the threshold, up to the cap. */
  function Cooldown(p: Policy, streak: int): int {
    Min(p.cooldown * Pow2(if streak > p.threshold then streak - p.threshold else 0), p.maxCooldown)
  }

  /** How an outcome was classified: a success, a failure the provider caused, or one the caller caused. */
  datatype Verdict = Success | ProviderFailure | CallerFailure

  function Judged(p: Policy, e: Entry, v: Verdict, now: Time): Entry {
    match v
    case CallerFailure => e.(updatedAt := now)
    case Success =>
      e.(failureStreak := 0, availability := Available, cooldownUntil := ZERO_TIME, updatedAt := now)
    case ProviderFailure =>
      var streak := e.failureStreak + 1;
      if streak >= p.threshold then
        e.(failureStreak := streak, lastFailureAt := now, availability := Unavailable,
           cooldownUntil := now + Cooldown(p, streak), updatedAt := now)
      else
        e.(failureStreak := streak, lastFailureAt := now, availability := Degraded, updatedAt := now)
  }

  function Outcome(p: Policy, e: Entry, who: Ident, v: Verdict, now: Time): Entry {
    var named := e.(accountAlias := who.account, modelAlias := who.model, provider := who.provider);
    Judged(p, Settle(p, Closed(named), now), v, now)
  }

  function Recorded(p: Policy, entries: map<string, Entry>, who: Ident, v: Verdict, now: Time): map<string, Entry> {
    entries[who.key := Outcome(p, Stored(entries, who.key), who, v, now)]
  }

  function SnapshotOf(p: Policy, entries: map<string, Entry>, now: Time): map<string, Entry> {
    map k | k in entries :: Settle(p, entries[k], now)
  }

  // ---- the store ------------------------------------------------------------------------------------

  class MemoryHealthStore {
    const policy: Policy
    var entries: map<string, Entry>

    ghost predicate Valid()
      reads this
    {
      policy.Valid()
    }

    constructor (threshold: int, cooldown: int, maxCooldown: int)
      ensures Valid() && entries == map[]
      ensures policy.threshold == (if threshold > 0 then threshold else 3)
      ensures policy.cooldown == (if cooldown > 0 then cooldown else 60)
      ensures policy.maxCooldown == if maxCooldown >= policy.cooldown then maxCooldown else 32 * policy.cooldown
    {
      policy := NewPolicy(threshold, cooldown, maxCooldown);
      entries := map[];
    }

    /** Admits one call to the candidate's provider, or says what blocks it and changes nothing. */
    method Acquire(c: Candidate, now: Time) returns (block: Option<Block>)
      requires Valid()
      modifies this
      ensures var who := IdentOf(c);
              && block == AdmissionBlock(old(entries), Prepared(policy, old(entries), who, now), who, c, now)
              && entries == if block.None? then Admitted(policy, old(entries), who, now) else old(entries)
    {
      var who := IdentOf(c);
      var entry := if who.key in entries then entries[who.key] else ZERO_ENTRY;
      entry := WithIdentity(entry, who);
      entry := entry.(availability := Normalized(entry.availability));
      entry := Settle(policy, entry, now);
      block := EntryBlock(entry, c, now);
      if block.Some? {
        return;
      }
      if c.accountMaxConcurrency > 0 {
        var total := SumAccount(entries, who.account);
        if total >= c.accountMaxConcurrency {
          return Some(AccountFull);
        }
      }
      entry := entry.(inFlight := entry.inFlight + 1, updatedAt := now);
      entries := entries[who.key := entry];
    }

    method Release(c: Candidate, now: Time)
      requires Valid()
      modifies this
      ensures entries == Released(old(entries), IdentOf(c), now)
    {
      var key := IdentOf(c).key;
      if key !in entries {
        return;
      }
      var entry := entries[key];
      if entry.inFlight > 0 {
        entry := entry.(inFlight := entry.inFlight - 1);
      }
      entries := entries[key := entry.(updatedAt := now)];
    }

    /** The cooldown loop computes the closed form. */
    method CooldownFor(streak: int) returns (d: int)
      requires Valid()
      ensures d == Cooldown(policy, streak)
    {
      d := CappedDoubling(policy.cooldown, if streak > policy.threshold then streak - policy.threshold else 0,
                          policy.maxCooldown);
    }

    method RecordOutcome(c: Candidate, v: Verdict, now: Time)
      requires Valid()
      modifies this
      ensures entries == Recorded(policy, old(entries), IdentOf(c), v, now)
    {
      var who := IdentOf(c);
      var key := who.key;
      var entry := if key in entries then entries[key] else ZERO_ENTRY;
      entry := entry.(accountAlias := who.account, modelAlias := who.model, provider := who.provider);
      if entry.inFlight > 0 {
        entry := entry.(inFlight := entry.inFlight - 1);
      }
      entry := Settle(policy, entry, now);
      match v {
        case CallerFailure =>
        case Success =>
          entry := entry.(failureStreak := 0, availability := Available, cooldownUntil := ZERO_TIME);
        case ProviderFailure =>
          entry := entry.(failureStreak := entry.failureStreak + 1, lastFailureAt := now);
          if entry.failureStreak >= policy.threshold {
            var cooldown := CooldownFor(entry.failureStreak);
            entry := entry.(availability := Unavailable, cooldownUntil := now + cooldown);
          } else {
            entry := entry.(availability := Degraded);
          }
      }
      entries := entries[key := entry.(updatedAt := now)];
    }

    method Snapshot(now: Time) returns (snapshot: map<string, Entry>)
      requires Valid()
      ensures snapshot == SnapshotOf(policy, entries, now)
    {
      snapshot := map[];
      var keys := entries.Keys;
      while keys != {}
        invariant keys <= entries.Keys && snapshot.Keys == entries.Keys - keys
        invariant forall k :: k in snapshot ==> snapshot[k] == Settle(policy, entries[k], now)
        decreases keys
      {
        var k :| k in keys;
        snapshot := snapshot[k := Settle(policy, entries[k], now)];
        keys := keys - {k};
      }
    }
  }
}
