/**
 When calls are let through, over whole runs: a circuit that is not open has no cooldown, so a call is refused only
 for an open circuit or a full provider or account; and, with clocks that do not run backwards, a closed circuit
 opens exactly when a burst of failures is complete.
 */
module HealthAdmits {
  import opened Wrappers
  import opened Health
  import opened HealthRuns

  // ---- what blocks a call -----------------------------------------------------------------------

  /** Only an open circuit cools down, and it does so at a time; the store never sets limits or quotas of its own. */
  predicate Plain(p: Policy, e: Entry) {
    && (e.availability != Unavailable ==> e.cooldownUntil == ZERO_TIME)
    && (e.availability == Unavailable ==> e.failureStreak >= p.threshold && e.cooldownUntil > 0)
    && e.maxConcurrency == 0 && e.quotaRemaining == 0 && !e.quotaExhausted
  }

  predicate AllPlain(p: Policy, s: Run) {
    forall key :: key in s.entries ==> Plain(p, s.entries[key])
  }

  /** Clocks read a time after the zero time. */
  predicate Positive(e: Event) {
    e.now > 0
  }

  lemma CooldownPositive(p: Policy, streak: int)
    requires p.Valid()
    ensures Cooldown(p, streak) > 0
  {
    var n: nat := if streak > p.threshold then streak - p.threshold else 0;
    PowPositive(n);
    assert p.cooldown * Doubling.Pow2(n) >= p.cooldown;
  }

  lemma {:induction false} PowPositive(n: nat)
    ensures Doubling.Pow2(n) >= 1
  {
    if n > 0 {
      PowPositive(n - 1);
    }
  }

  lemma OutcomePlain(p: Policy, e: Entry, who: Ident, v: Verdict, now: Time)
    requires p.Valid() && Plain(p, e) && now > 0
    ensures Plain(p, Outcome(p, e, who, v, now))
  {
    CooldownPositive(p, e.failureStreak + 1);
    CooldownPositive(p, 1);
  }

  lemma PlainStep(p: Policy, s: Run, e: Event)
    requires p.Valid() && AllPlain(p, s) && Positive(e)
    ensures AllPlain(p, Apply(p, s, e))
  {
    if e.Record? && e.call in s.open {
      OutcomePlain(p, Stored(s.entries, s.open[e.call].key), s.open[e.call], e.verdict, e.now);
    }
  }

  lemma {:induction false} PlainExec(p: Policy, s: Run, es: seq<Event>)
    requires p.Valid() && AllPlain(p, s) && forall e :: e in es ==> Positive(e)
    ensures AllPlain(p, Exec(p, s, es))
    decreases es
  {
    if es != [] {
      PlainStep(p, s, es[0]);
      PlainExec(p, Apply(p, s, es[0]), es[1..]);
    }
  }

  /** The circuit lets a call through: it is not open, or its cooldown is over and no other call is under way. */
  predicate LetsThrough(s: Run, key: string, now: Time) {
    var e := Stored(s.entries, key);
    e.availability == Unavailable ==> now >= e.cooldownUntil && OpenAt(s.open, key) == {}
  }

  lemma PreparedPlain(p: Policy, s: Run, who: Ident, now: Time)
    requires AllPlain(p, s)
    ensures var e, stored := Prepared(p, s.entries, who, now), Stored(s.entries, who.key);
            && (e.availability == Unavailable <==> stored.availability == Unavailable)
            && e.cooldownUntil == stored.cooldownUntil && e.inFlight == stored.inFlight
            && e.maxConcurrency == 0 && e.quotaRemaining == 0 && !e.quotaExhausted
            && (e.availability == Unavailable ==> e.cooldownUntil > 0)
            && (e.availability != Unavailable ==> e.cooldownUntil == ZERO_TIME)
  {
  }

  /**
   In every reachable state a call is admitted if and only if its circuit lets it through, its provider has fewer open
   calls than its limit, and its account fewer than its own.
   */
  lemma AdmittedIff(p: Policy, es: seq<Event>, who: Ident, c: Candidate, now: Time)
    requires p.Valid() && forall e :: e in es ==> Positive(e)
    ensures var s := Exec(p, IDLE, es);
            Admits(p, s.entries, who, c, now) <==>
            && LetsThrough(s, who.key, now)
            && (c.model.maxConcurrency > 0 ==> |OpenAt(s.open, who.key)| < c.model.maxConcurrency)
            && (c.accountMaxConcurrency > 0 ==> AccountTotal(s.entries, who.account) < c.accountMaxConcurrency)
  {
    var s := Exec(p, IDLE, es);
    PlainExec(p, IDLE, es);
    LimitsHold(p, NO_LIMIT, es, who.key);
    PreparedPlain(p, s, who, now);
    assert |OpenAt(s.open, who.key)| == 0 <==> OpenAt(s.open, who.key) == {};
  }

  /** In every reachable state an entry whose circuit is not open has no cooldown. */
  lemma NoCooldownUnlessOpen(p: Policy, es: seq<Event>, key: string)
    requires p.Valid() && (forall e :: e in es ==> Positive(e)) && key in Exec(p, IDLE, es).entries
    ensures var e := Exec(p, IDLE, es).entries[key]; e.availability != Unavailable <==> e.cooldownUntil == ZERO_TIME
  {
    PlainExec(p, IDLE, es);
  }

  lemma {:induction false} ExecSnoc(p: Policy, s: Run, es: seq<Event>, e: Event)
    ensures Exec(p, s, es + [e]) == Apply(p, Exec(p, s, es), e)
    decreases es
  {
    if es == [] {
      assert es + [e] == [e] && [e][1..] == [];
    } else {
      assert (es + [e])[0] == es[0] && (es + [e])[1..] == es[1..] + [e];
      ExecSnoc(p, Apply(p, s, es[0]), es[1..], e);
    }
  }

  /**
   A success closes the circuit: whatever failures came before, the next call of the key is admitted at once unless
   its provider or account is full.
   */
  lemma SuccessCloses(p: Policy, es: seq<Event>, call: nat, now: Time, who: Ident, c: Candidate, later: Time)
    requires p.Valid() && now > 0 && forall e :: e in es ==> Positive(e)
    requires call in Exec(p, IDLE, es).open && Exec(p, IDLE, es).open[call].key == who.key
    ensures var s := ApplyRecord(p, Exec(p, IDLE, es), call, Success, now);
            Admits(p, s.entries, who, c, later) <==>
            && (c.model.maxConcurrency > 0 ==> |OpenAt(s.open, who.key)| < c.model.maxConcurrency)
            && (c.accountMaxConcurrency > 0 ==> AccountTotal(s.entries, who.account) < c.accountMaxConcurrency)
  {
    var record := Record(call, Success, now);
    ExecSnoc(p, IDLE, es, record);
    AdmittedIff(p, es + [record], who, c, later);
  }

  // ---- a complete burst opens the circuit ---------------------------------------------------------

  /** No clock runs backwards. */
  predicate Monotone(clock: Time, es: seq<Event>)
    decreases es
  {
    es != [] ==> clock <= es[0].now && Monotone(es[0].now, es[1..])
  }

  function LastTime(clock: Time, es: seq<Event>): Time
    decreases es
  {
    if es == [] then clock else LastTime(es[0].now, es[1..])
  }

  /** A closed circuit's streak is the whole burst, unless the burst's last failure is a cooldown ago. */
  predicate Exact(p: Policy, e: Entry, h: seq<Mark>, clock: Time) {
    && (h != [] ==> h[|h| - 1].at <= clock)
    && (e.availability != Unavailable ==>
          || e.failureStreak == Burst(h, p.cooldown)
          || (e.failureStreak == 0 && h != [] && clock - h[|h| - 1].at >= p.cooldown))
  }

  ghost predicate AllExact(p: Policy, s: Run, clock: Time) {
    && (forall key :: key in s.entries ==> Exact(p, s.entries[key], History(s, key), clock))
    && (forall key :: key !in s.entries ==> History(s, key) == [])
  }

  lemma ExactLater(p: Policy, e: Entry, h: seq<Mark>, clock: Time, now: Time)
    requires Exact(p, e, h, clock) && clock <= now
    ensures Exact(p, e, h, now)
  {
  }

  /** Settling an entry at `now` forgets only a burst that is a cooldown old. */
  lemma SettleExact(p: Policy, e: Entry, h: seq<Mark>, now: Time)
    requires p.Valid() && Exact(p, e, h, now) && (e.availability != Unavailable ==> ClosedBacked(p, e, h))
    ensures Exact(p, Settle(p, e, now), h, now)
  {
    if Settle(p, e, now) != e && e.failureStreak == 0 {
      assert Settle(p, e, now).failureStreak == e.failureStreak;
    }
  }

  lemma FailureExact(p: Policy, e: Entry, who: Ident, h: seq<Mark>, since: nat, now: Time)
    requires p.Valid() && StreakBacked(p, e, h, since) && Exact(p, e, h, now) && now > 0
    ensures var e' := Outcome(p, e, who, ProviderFailure, now);
            var h' := h + [Mark(false, now)];
            Exact(p, e', h', now) && (e'.availability != Unavailable ==> e'.failureStreak == Burst(h', p.cooldown))
  {
    var h' := h + [Mark(false, now)];
    assert h'[..|h'| - 1] == h;
    assert |h| > 0 ==> h'[|h'| - 2] == h[|h| - 1];
    if e.availability == Unavailable {
      OpenFails(p, e, who, h, since, now);
    } else {
      BurstStep(h, p.cooldown, now);
    }
  }

  lemma BurstStep(h: seq<Mark>, cooldown: int, now: Time)
    ensures var h' := h + [Mark(false, now)];
            Burst(h', cooldown) ==
            if Burst(h, cooldown) > 0 && now - h[|h| - 1].at < cooldown then Burst(h, cooldown) + 1 else 1
  {
    var h' := h + [Mark(false, now)];
    assert h'[..|h'| - 1] == h;
    assert |h| > 0 ==> h'[|h'| - 2] == h[|h| - 1];
  }

  lemma OutcomeExact(p: Policy, e: Entry, who: Ident, h: seq<Mark>, since: nat, v: Verdict, now: Time)
    requires p.Valid() && StreakBacked(p, e, h, since) && Exact(p, e, h, now) && now > 0
    ensures Exact(p, Outcome(p, e, who, v, now),
                  if v.CallerFailure? then h else h + [Mark(v.Success?, now)], now)
  {
    match v
    case CallerFailure =>
      var named := e.(accountAlias := who.account, modelAlias := who.model, provider := who.provider);
      SettleExact(p, Closed(named), h, now);
    case Success => assert Burst(h + [Mark(true, now)], p.cooldown) == 0;
    case ProviderFailure => FailureExact(p, e, who, h, since, now);
  }

  /** Only one key's entry and history change. */
  lemma OneExact(p: Policy, s: Run, s': Run, key: string, now: Time)
    requires AllExact(p, s, now) && key in s'.entries && s'.entries == s.entries[key := s'.entries[key]]
    requires forall k :: k != key ==> History(s', k) == History(s, k)
    requires Exact(p, s'.entries[key], History(s', key), now)
    ensures AllExact(p, s', now)
  {
  }

  lemma RecordExact(p: Policy, s: Run, call: nat, v: Verdict, now: Time)
    requires p.Valid() && Backed(p, s) && AllExact(p, s, now) && KeysKnown(s) && now > 0
    ensures AllExact(p, ApplyRecord(p, s, call, v, now), now)
  {
    if call in s.open {
      var key := s.open[call].key;
      assert StreakBacked(p, s.entries[key], History(s, key), OpenedAt(s, key));
      assert Exact(p, s.entries[key], History(s, key), now);
      OutcomeExact(p, s.entries[key], s.open[call], History(s, key), OpenedAt(s, key), v, now);
      OneExact(p, s, ApplyRecord(p, s, call, v, now), key, now);
    }
  }

  lemma AcquireExact(p: Policy, s: Run, call: nat, who: Ident, c: Candidate, now: Time)
    requires p.Valid() && Backed(p, s) && AllExact(p, s, now)
    ensures AllExact(p, ApplyAcquire(p, s, call, who, c, now), now)
  {
    if call !in s.open && Admits(p, s.entries, who, c, now) {
      var e := Stored(s.entries, who.key);
      var named := WithIdentity(e, who).(availability := Normalized(e.availability));
      if who.key in s.entries {
        assert StreakBacked(p, e, History(s, who.key), OpenedAt(s, who.key)) && Exact(p, e, History(s, who.key), now);
      }
      SettleExact(p, named, History(s, who.key), now);
    }
  }

  lemma ExactStep(p: Policy, s: Run, e: Event, clock: Time)
    requires p.Valid() && Backed(p, s) && KeysKnown(s) && AllExact(p, s, clock) && clock <= e.now && Positive(e)
    ensures AllExact(p, Apply(p, s, e), e.now)
  {
    assert AllExact(p, s, e.now);
    match e
    case Acquire(call, who, c, now) => AcquireExact(p, s, call, who, c, now);
    case Release(call, now) =>
    case Record(call, v, now) => RecordExact(p, s, call, v, now);
  }

  lemma {:induction false} ExactExec(p: Policy, s: Run, es: seq<Event>, clock: Time)
    requires p.Valid() && Backed(p, s) && KeysKnown(s) && AllExact(p, s, clock) && clock >= 0 && Monotone(clock, es)
    requires forall e :: e in es ==> Positive(e)
    ensures AllExact(p, Exec(p, s, es), LastTime(clock, es)) && Backed(p, Exec(p, s, es)) && KeysKnown(Exec(p, s, es))
    decreases es
  {
    if es != [] {
      assert es[0] in es;
      ExactStep(p, s, es[0], clock);
      BackedStep(p, s, es[0]);
      KeysKnownStep(p, s, es[0]);
      ExactExec(p, Apply(p, s, es[0]), es[1..], es[0].now);
    }
  }

  /** A history that ends in n failures with every gap below the cooldown has a burst of at least n. */
  lemma {:induction false} BurstAtLeast(h: seq<Mark>, cooldown: int, n: nat)
    requires EndsInBurst(h, n, cooldown)
    ensures Burst(h, cooldown) >= n
  {
    if n >= 2 {
      assert !h[|h| - 1].success && !h[|h| - 2].success;
      BurstAtLeast(h[..|h| - 1], cooldown, n - 1);
    } else if n == 1 {
      assert !h[|h| - 1].success;
    }
  }

  /**
   With clocks that do not run backwards, a counted failure leaves the circuit open if it was open or if it completes
   a burst of `threshold` failures, and only then.
   */
  lemma FailureOpensIff(p: Policy, es: seq<Event>, call: nat, now: Time)
    requires p.Valid() && Monotone(0, es) && LastTime(0, es) <= now && now > 0
    requires (forall e :: e in es ==> Positive(e)) && call in Exec(p, IDLE, es).open
    ensures var s := Exec(p, IDLE, es);
            var s', key := ApplyRecord(p, s, call, ProviderFailure, now), s.open[call].key;
            s'.entries[key].availability == Unavailable <==>
            || Stored(s.entries, key).availability == Unavailable
            || EndsInBurst(History(s', key), p.threshold, p.cooldown)
  {
    ExactExec(p, IDLE, es, 0);
    var s := Exec(p, IDLE, es);
    var who, key := s.open[call], s.open[call].key;
    var e, h := s.entries[key], History(s, key);
    assert StreakBacked(p, e, h, OpenedAt(s, key)) && Exact(p, e, h, now);
    var e', h' := Outcome(p, e, who, ProviderFailure, now), h + [Mark(false, now)];
    FailureExact(p, e, who, h, OpenedAt(s, key), now);
    if e.availability == Unavailable {
      OpenFails(p, e, who, h, OpenedAt(s, key), now);
    } else {
      ClosedFails(p, e, who, h, now);
      if EndsInBurst(h', p.threshold, p.cooldown) {
        BurstAtLeast(h', p.cooldown, p.threshold);
      }
      assert h'[..|h'|] == h';
    }
  }
}
