/**
 Whole runs of the health store in which every admitted call is closed once, by Release or by
 RecordOutcome: counts equal the open calls, fixed limits hold, an open circuit has at most
 one probe, and a circuit opens only after a burst of failures.
 */
module HealthRuns {
  import opened Doubling
  import opened Health

  /** A counted outcome: a success, or a failure the provider caused. */
  datatype Mark = Mark(success: bool, at: Time)

  datatype Run = Run(
    entries: map<string, Entry>,
    open: map<nat, Ident>,               // admitted calls that were not closed yet
    probes: map<string, set<nat>>,       // per key: open calls admitted since the circuit last opened
    history: map<string, seq<Mark>>,     // per key: counted outcomes, oldest first
    since: map<string, nat>)            // per key: how many of them there were once the circuit last opened

  datatype Event =
    | Acquire(call: nat, who: Ident, candidate: Candidate, now: Time)
    | Release(call: nat, now: Time)
    | Record(call: nat, verdict: Verdict, now: Time)

  function Probes(s: Run, key: string): set<nat> {
    if key in s.probes then s.probes[key] else {}
  }

  function History(s: Run, key: string): seq<Mark> {
    if key in s.history then s.history[key] else []
  }

  function OpenedAt(s: Run, key: string): nat {
    if key in s.since then s.since[key] else 0
  }

  ghost function ApplyAcquire(p: Policy, s: Run, call: nat, who: Ident, c: Candidate, now: Time): Run {
    if call in s.open || !Admits(p, s.entries, who, c, now) then s
    else
      var half := Prepared(p, s.entries, who, now).availability == Unavailable;
      s.(entries := Admitted(p, s.entries, who, now), open := s.open[call := who],
         probes := if half then s.probes[who.key := Probes(s, who.key) + {call}] else s.probes)
  }

  function ApplyRelease(s: Run, call: nat, now: Time): Run {
    if call !in s.open then s
    else
      var who := s.open[call];
      s.(entries := Released(s.entries, who, now), open := s.open - {call},
         probes := s.probes[who.key := Probes(s, who.key) - {call}])
  }

  /** The circuit opens: the entry was not unavailable and now is. */
  predicate Opens(before: Entry, after: Entry) {
    before.availability != Unavailable && after.availability == Unavailable
  }

  function ApplyRecord(p: Policy, s: Run, call: nat, v: Verdict, now: Time): Run {
    if call !in s.open then s
    else
      var who := s.open[call];
      var key := who.key;
      var entries := Recorded(p, s.entries, who, v, now);
      var opens := Opens(Stored(s.entries, key), entries[key]);
      var history := if v.CallerFailure? then History(s, key) else History(s, key) + [Mark(v.Success?, now)];
      s.(entries := entries, open := s.open - {call},
         probes := s.probes[key := if opens then {} else Probes(s, key) - {call}],
         history := s.history[key := history],
         since := if opens then s.since[key := |history|] else s.since)
  }

  ghost function Apply(p: Policy, s: Run, e: Event): Run {
    match e
    case Acquire(call, who, c, now) => ApplyAcquire(p, s, call, who, c, now)
    case Release(call, now) => ApplyRelease(s, call, now)
    case Record(call, v, now) => ApplyRecord(p, s, call, v, now)
  }

  ghost function Exec(p: Policy, s: Run, es: seq<Event>): Run
    decreases es
  {
    if es == [] then s else Exec(p, Apply(p, s, es[0]), es[1..])
  }

  const IDLE := Run(map[], map[], map[], map[], map[])

  function OpenAt(open: map<nat, Ident>, key: string): set<nat> {
    set call | call in open && open[call].key == key
  }

  function OpenOf(open: map<nat, Ident>, account: string): set<nat> {
    set call | call in open && open[call].account == account
  }

  lemma OpenAdds(open: map<nat, Ident>, call: nat, who: Ident, key: string, account: string)
    requires call !in open
    ensures OpenAt(open[call := who], key) == OpenAt(open, key) + (if who.key == key then {call} else {})
    ensures OpenOf(open[call := who], account)
            == OpenOf(open, account) + (if who.account == account then {call} else {})
  {
  }

  lemma OpenRemoves(open: map<nat, Ident>, call: nat, key: string, account: string)
    requires call in open
    ensures OpenAt(open - {call}, key) == OpenAt(open, key) - {call}
    ensures OpenOf(open - {call}, account) == OpenOf(open, account) - {call}
  {
  }

  // ---- entries: counts, provider limits and probes ------------------------------------------------------

  /** A fixed limit per key; zero or less is no limit. */
  type ProviderLimit = string -> int

  /** The candidate enforces the limit of its key; it may be stricter. */
  predicate Enforces(limit: ProviderLimit, e: Event) {
    e.Acquire? && limit(e.who.key) > 0 ==> 0 < e.candidate.model.maxConcurrency <= limit(e.who.key)
  }

  predicate EntryCounted(limit: ProviderLimit, s: Run, key: string)
    requires key in s.entries
  {
    var e := s.entries[key];
    && e.inFlight == |OpenAt(s.open, key)| && e.maxConcurrency == 0
    && (limit(key) > 0 ==> e.inFlight <= limit(key))
    && Probes(s, key) <= OpenAt(s.open, key)
    && (e.availability == Unavailable ==> |Probes(s, key)| <= 1)
  }

  /** Open calls and probes belong to entries. */
  ghost predicate KeysKnown(s: Run) {
    && (forall call :: call in s.open ==> s.open[call].key in s.entries)
    && (forall key :: key in s.probes ==> key in s.entries)
  }

  ghost predicate EntriesCounted(limit: ProviderLimit, s: Run) {
    forall key :: key in s.entries ==> EntryCounted(limit, s, key)
  }

  ghost predicate Counted(limit: ProviderLimit, s: Run) {
    KeysKnown(s) && EntriesCounted(limit, s)
  }

  lemma EmptyOpenAt(s: Run, key: string)
    requires KeysKnown(s) && key !in s.entries
    ensures OpenAt(s.open, key) == {} && Probes(s, key) == {}
  {
  }

  /** What admission says about the entry: it gains one call, and an unavailable one had none. */
  lemma AdmittedEntry(p: Policy, entries: map<string, Entry>, who: Ident, c: Candidate, now: Time)
    requires Admits(p, entries, who, c, now)
    ensures var e, e' := Stored(entries, who.key), Admitted(p, entries, who, now)[who.key];
            && e'.inFlight == e.inFlight + 1 && e'.maxConcurrency == e.maxConcurrency
            && e'.accountAlias == (if e.accountAlias == "" then who.account else e.accountAlias)
            && (e'.availability == Unavailable <==> e.availability == Unavailable)
            && Prepared(p, entries, who, now).availability == e'.availability
            && (e.availability == Unavailable ==> e.inFlight <= 0)
            && (e.maxConcurrency == 0 && c.model.maxConcurrency > 0 ==> e'.inFlight <= c.model.maxConcurrency)
            && (c.accountMaxConcurrency > 0 ==> AccountTotal(entries, who.account) < c.accountMaxConcurrency)
  {
  }

  /** The open calls and the probes of the key after an admission. */
  lemma AcquireCalls(p: Policy, s: Run, call: nat, who: Ident, c: Candidate, now: Time)
    requires call !in s.open && Admits(p, s.entries, who, c, now) && Probes(s, who.key) <= OpenAt(s.open, who.key)
    ensures var s' := ApplyAcquire(p, s, call, who, c, now);
            && |OpenAt(s'.open, who.key)| == |OpenAt(s.open, who.key)| + 1
            && Probes(s', who.key) <= OpenAt(s'.open, who.key)
            && (|OpenAt(s.open, who.key)| == 0 ==> |Probes(s', who.key)| <= 1)
  {
    OpenAdds(s.open, call, who, who.key, "");
    var before := OpenAt(s.open, who.key);
    assert call !in before && |before + {call}| == |before| + 1;
    assert |before| == 0 ==> before == {};
  }

  lemma AcquireEntry(p: Policy, limit: ProviderLimit, s: Run, call: nat, who: Ident, c: Candidate, now: Time)
    requires Counted(limit, s) && call !in s.open && Admits(p, s.entries, who, c, now)
    requires Enforces(limit, Acquire(call, who, c, now))
    ensures EntryCounted(limit, ApplyAcquire(p, s, call, who, c, now), who.key)
  {
    if who.key !in s.entries {
      EmptyOpenAt(s, who.key);
    } else {
      assert EntryCounted(limit, s, who.key);
    }
    AdmittedEntry(p, s.entries, who, c, now);
    AcquireCalls(p, s, call, who, c, now);
  }

  lemma AcquireOther(p: Policy, limit: ProviderLimit, s: Run, call: nat, who: Ident, c: Candidate, now: Time,
                     key: string)
    requires EntriesCounted(limit, s) && call !in s.open && Admits(p, s.entries, who, c, now)
    requires key in s.entries && key != who.key
    ensures EntryCounted(limit, ApplyAcquire(p, s, call, who, c, now), key)
  {
    OpenAdds(s.open, call, who, key, "");
    assert EntryCounted(limit, s, key);
  }

  lemma AcquireEntries(p: Policy, limit: ProviderLimit, s: Run, call: nat, who: Ident, c: Candidate, now: Time)
    requires Counted(limit, s) && call !in s.open && Admits(p, s.entries, who, c, now)
    requires Enforces(limit, Acquire(call, who, c, now))
    ensures EntriesCounted(limit, ApplyAcquire(p, s, call, who, c, now))
  {
    var s' := ApplyAcquire(p, s, call, who, c, now);
    forall key | key in s'.entries
      ensures EntryCounted(limit, s', key)
    {
      if key == who.key {
        AcquireEntry(p, limit, s, call, who, c, now);
      } else {
        AcquireOther(p, limit, s, call, who, c, now, key);
      }
    }
  }

  lemma KeysKnownStep(p: Policy, s: Run, e: Event)
    requires KeysKnown(s)
    ensures KeysKnown(Apply(p, s, e))
  {
  }

  lemma CountedAcquire(p: Policy, limit: ProviderLimit, s: Run, call: nat, who: Ident, c: Candidate, now: Time)
    requires Counted(limit, s) && Enforces(limit, Acquire(call, who, c, now))
    ensures EntriesCounted(limit, ApplyAcquire(p, s, call, who, c, now))
  {
    if call !in s.open && Admits(p, s.entries, who, c, now) {
      AcquireEntries(p, limit, s, call, who, c, now);
    }
  }

  /** An entry may be replaced by one with one call less in flight, with probes that stay probes. */
  predicate ClosesTo(s: Run, call: nat, e: Entry, probes: set<nat>)
    requires call in s.open && s.open[call].key in s.entries
  {
    var key := s.open[call].key;
    && e.inFlight == s.entries[key].inFlight - 1 && e.maxConcurrency == 0
    && (probes == {} || (probes == Probes(s, key) - {call} &&
        (e.availability == Unavailable ==> s.entries[key].availability == Unavailable)))
  }

  /** The run after a call was closed, with its entry and probes replaced. */
  predicate ClosesRun(s: Run, call: nat, s': Run)
    requires call in s.open && s.open[call].key in s.entries
  {
    var key := s.open[call].key;
    && key in s'.entries && key in s'.probes && ClosesTo(s, call, s'.entries[key], s'.probes[key])
    && s'.entries == s.entries[key := s'.entries[key]] && s'.open == s.open - {call}
    && s'.probes == s.probes[key := s'.probes[key]]
  }

  lemma CloseEntry(limit: ProviderLimit, s: Run, call: nat, s': Run, k: string)
    requires EntriesCounted(limit, s) && call in s.open && s.open[call].key in s.entries
    requires ClosesRun(s, call, s') && k in s'.entries
    ensures EntryCounted(limit, s', k)
  {
    assert EntryCounted(limit, s, k);
    OpenRemoves(s.open, call, k, "");
    assert k != s.open[call].key ==> call !in OpenAt(s.open, k);
    assert k == s.open[call].key ==> call in OpenAt(s.open, k);
  }

  /** Closing a call keeps every count. */
  lemma CountedClose(limit: ProviderLimit, s: Run, call: nat, s': Run)
    requires EntriesCounted(limit, s) && call in s.open && s.open[call].key in s.entries && ClosesRun(s, call, s')
    ensures EntriesCounted(limit, s')
  {
    forall k | k in s'.entries
      ensures EntryCounted(limit, s', k)
    {
      CloseEntry(limit, s, call, s', k);
    }
  }

  lemma ReleaseCloses(limit: ProviderLimit, s: Run, call: nat, now: Time)
    requires call in s.open && s.open[call].key in s.entries && EntryCounted(limit, s, s.open[call].key)
    ensures ClosesRun(s, call, ApplyRelease(s, call, now))
  {
    assert call in OpenAt(s.open, s.open[call].key);
  }

  lemma RecordCloses(p: Policy, limit: ProviderLimit, s: Run, call: nat, v: Verdict, now: Time)
    requires call in s.open && s.open[call].key in s.entries && EntryCounted(limit, s, s.open[call].key)
    ensures ClosesRun(s, call, ApplyRecord(p, s, call, v, now))
  {
    assert call in OpenAt(s.open, s.open[call].key);
  }

  lemma CountedStep(p: Policy, limit: ProviderLimit, s: Run, e: Event)
    requires Counted(limit, s) && Enforces(limit, e)
    ensures Counted(limit, Apply(p, s, e))
  {
    KeysKnownStep(p, s, e);
    if e.Acquire? {
      CountedAcquire(p, limit, s, e.call, e.who, e.candidate, e.now);
    } else if e.call in s.open {
      assert EntryCounted(limit, s, s.open[e.call].key);
      StepCloses(p, limit, s, e);
      CountedClose(limit, s, e.call, Apply(p, s, e));
    }
  }

  lemma StepCloses(p: Policy, limit: ProviderLimit, s: Run, e: Event)
    requires !e.Acquire? && e.call in s.open && s.open[e.call].key in s.entries
    requires EntryCounted(limit, s, s.open[e.call].key)
    ensures ClosesRun(s, e.call, Apply(p, s, e))
  {
    if e.Release? {
      ReleaseCloses(limit, s, e.call, e.now);
    } else {
      RecordCloses(p, limit, s, e.call, e.verdict, e.now);
    }
  }

  lemma {:induction false} CountedExec(p: Policy, limit: ProviderLimit, s: Run, es: seq<Event>)
    requires Counted(limit, s) && forall e :: e in es ==> Enforces(limit, e)
    ensures Counted(limit, Exec(p, s, es))
    decreases es
  {
    if es != [] {
      CountedStep(p, limit, s, es[0]);
      CountedExec(p, limit, Apply(p, s, es[0]), es[1..]);
    }
  }

  /**
   In every run that closes each admitted call once, whichever accounts share keys: in-flight counts are the open
   calls of the key, no provider exceeds its limit, and while a circuit is open at most one call admitted since it
   opened is open.
   */
  lemma LimitsHold(p: Policy, limit: ProviderLimit, es: seq<Event>, key: string)
    requires forall e :: e in es ==> Enforces(limit, e)
    ensures var s := Exec(p, IDLE, es);
            && Stored(s.entries, key).inFlight == |OpenAt(s.open, key)|
            && (limit(key) > 0 ==> |OpenAt(s.open, key)| <= limit(key))
            && (Stored(s.entries, key).availability == Unavailable ==> |Probes(s, key)| <= 1)
  {
    CountedExec(p, limit, IDLE, es);
    var s := Exec(p, IDLE, es);
    if key in s.entries {
      assert EntryCounted(limit, s, key);
    } else {
      EmptyOpenAt(s, key);
    }
  }

  // ---- accounts: totals and limits, where a key determines its account ----------------------------------

  /** The account of each key, and a fixed limit per account; zero or less is no limit. */
  datatype Fleet = Fleet(account: string -> string, accountLimit: string -> int)

  predicate Member(f: Fleet, who: Ident, c: Candidate) {
    && f.account(who.key) == who.account
    && (f.accountLimit(who.account) > 0 ==> 0 < c.accountMaxConcurrency <= f.accountLimit(who.account))
  }

  predicate FleetEvent(f: Fleet, e: Event) {
    e.Acquire? ==> Member(f, e.who, e.candidate)
  }

  ghost predicate AccountCounted(f: Fleet, s: Run, account: string) {
    && AccountTotal(s.entries, account) == |OpenOf(s.open, account)|
    && (f.accountLimit(account) > 0 ==> AccountTotal(s.entries, account) <= f.accountLimit(account))
  }

  /** Entries and open calls carry the account of their key. */
  ghost predicate Owned(f: Fleet, s: Run) {
    && (forall key :: key in s.entries ==> s.entries[key].accountAlias == f.account(key))
    && (forall call :: call in s.open ==> s.open[call].account == f.account(s.open[call].key))
  }

  ghost predicate AccountsCounted(f: Fleet, s: Run) {
    forall account :: AccountCounted(f, s, account)
  }

  const NO_LIMIT: ProviderLimit := (key: string) => 0

  lemma AccountAdds(f: Fleet, s: Run, call: nat, who: Ident, e: Entry, account: string)
    requires AccountCounted(f, s, account) && call !in s.open
    requires e.accountAlias == who.account && e.inFlight == Stored(s.entries, who.key).inFlight + 1
    requires who.key in s.entries ==> s.entries[who.key].accountAlias == who.account
    requires f.accountLimit(who.account) > 0 ==> AccountTotal(s.entries, who.account) < f.accountLimit(who.account)
    ensures AccountTotal(s.entries[who.key := e], account) == |OpenOf(s.open[call := who], account)|
    ensures f.accountLimit(account) > 0 ==> AccountTotal(s.entries[who.key := e], account) <= f.accountLimit(account)
  {
    OpenAdds(s.open, call, who, "", account);
    TotalUpdate(s.entries, account, who.key, e);
    assert call !in OpenOf(s.open, account);
  }

  lemma AcquireAccount(p: Policy, f: Fleet, s: Run, call: nat, who: Ident, c: Candidate, now: Time, account: string)
    requires Owned(f, s) && AccountCounted(f, s, account) && Member(f, who, c)
    requires call !in s.open && Admits(p, s.entries, who, c, now)
    ensures AccountCounted(f, ApplyAcquire(p, s, call, who, c, now), account)
  {
    AdmittedEntry(p, s.entries, who, c, now);
    AccountAdds(f, s, call, who, Admitted(p, s.entries, who, now)[who.key], account);
  }

  lemma AccountDrops(f: Fleet, s: Run, call: nat, e: Entry, account: string)
    requires AccountCounted(f, s, account) && call in s.open && s.open[call].key in s.entries
    requires var who := s.open[call];
             && e.accountAlias == who.account == s.entries[who.key].accountAlias
             && e.inFlight == s.entries[who.key].inFlight - 1
    ensures AccountTotal(s.entries[s.open[call].key := e], account) == |OpenOf(s.open - {call}, account)|
    ensures f.accountLimit(account) > 0 ==>
              AccountTotal(s.entries[s.open[call].key := e], account) <= f.accountLimit(account)
  {
    OpenRemoves(s.open, call, "", account);
    TotalUpdate(s.entries, account, s.open[call].key, e);
    assert s.open[call].account == account <==> call in OpenOf(s.open, account);
  }

  lemma OwnedStep(p: Policy, f: Fleet, s: Run, e: Event)
    requires Owned(f, s) && KeysKnown(s) && FleetEvent(f, e)
    ensures Owned(f, Apply(p, s, e))
  {
  }

  lemma AccountStep(p: Policy, f: Fleet, s: Run, e: Event, account: string)
    requires Counted(NO_LIMIT, s) && Owned(f, s) && AccountCounted(f, s, account) && FleetEvent(f, e)
    ensures AccountCounted(f, Apply(p, s, e), account)
  {
    if e.Acquire? {
      if e.call !in s.open && Admits(p, s.entries, e.who, e.candidate, e.now) {
        AcquireAccount(p, f, s, e.call, e.who, e.candidate, e.now, account);
      }
    } else if e.call in s.open {
      var key := s.open[e.call].key;
      assert EntryCounted(NO_LIMIT, s, key);
      StepCloses(p, NO_LIMIT, s, e);
      OwnedStep(p, f, s, e);
      AccountDrops(f, s, e.call, Apply(p, s, e).entries[key], account);
    }
  }

  lemma {:induction false} AccountExec(p: Policy, f: Fleet, s: Run, es: seq<Event>)
    requires Counted(NO_LIMIT, s) && Owned(f, s) && AccountsCounted(f, s) && forall e :: e in es ==> FleetEvent(f, e)
    ensures AccountsCounted(f, Exec(p, s, es))
    decreases es
  {
    if es != [] {
      CountedStep(p, NO_LIMIT, s, es[0]);
      OwnedStep(p, f, s, es[0]);
      forall account ensures AccountCounted(f, Apply(p, s, es[0]), account) {
        AccountStep(p, f, s, es[0], account);
      }
      AccountExec(p, f, Apply(p, s, es[0]), es[1..]);
    }
  }

  /** Where a key determines its account, account totals are the open calls and no account exceeds its limit. */
  lemma AccountLimitsHold(p: Policy, f: Fleet, es: seq<Event>, account: string)
    requires forall e :: e in es ==> FleetEvent(f, e)
    ensures var s := Exec(p, IDLE, es);
            && AccountTotal(s.entries, account) == |OpenOf(s.open, account)|
            && (f.accountLimit(account) > 0 ==> |OpenOf(s.open, account)| <= f.accountLimit(account))
  {
    forall a
      ensures AccountCounted(f, IDLE, a)
    {
      assert OpenOf(map[], a) == {};
    }
    AccountExec(p, f, IDLE, es);
    assert AccountCounted(f, Exec(p, IDLE, es), account);
  }

  // ---- when the circuit opens ---------------------------------------------------------------------------

  /** Length of the run of failures at the end of a history, each less than a cooldown after the one before. */
  function Burst(h: seq<Mark>, cooldown: int): nat {
    if h == [] || h[|h| - 1].success then 0
    else if |h| >= 2 && !h[|h| - 2].success && h[|h| - 1].at - h[|h| - 2].at < cooldown
    then 1 + Burst(h[..|h| - 1], cooldown)
    else 1
  }

  /** A burst of n: the last n outcomes are failures, with every gap shorter than the cooldown. */
  lemma {:induction false} BurstMeans(h: seq<Mark>, cooldown: int, n: nat)
    requires n <= Burst(h, cooldown)
    ensures n <= |h|
    ensures forall i :: |h| - n <= i < |h| ==> !h[i].success
    ensures forall i :: |h| - n < i < |h| ==> h[i].at - h[i - 1].at < cooldown
  {
    if n >= 2 {
      BurstMeans(h[..|h| - 1], cooldown, n - 1);
    }
  }

  /** The last n counted outcomes are failures with no success between them and every gap below the cooldown. */
  predicate EndsInBurst(h: seq<Mark>, n: int, cooldown: int) {
    && 0 <= n <= |h|
    && (forall i :: |h| - n <= i < |h| ==> !h[i].success)
    && (forall i :: |h| - n < i < |h| ==> h[i].at - h[i - 1].at < cooldown)
  }

  /**
   An open circuit: it opened after a burst, every counted outcome since is a failure that added one to the streak,
   and the cooldown runs from the last of them, doubled once for each.
   */
  predicate OpenBacked(p: Policy, e: Entry, h: seq<Mark>, since: nat) {
    && p.threshold <= since <= |h| && EndsInBurst(h[..since], p.threshold, p.cooldown)
    && (forall i :: since <= i < |h| ==> !h[i].success)
    && e.failureStreak - p.threshold == |h| - since
    && 0 < |h| && e.lastFailureAt == h[|h| - 1].at
    && e.cooldownUntil == e.lastFailureAt + Min(p.cooldown * Pow2(|h| - since), p.maxCooldown)
  }

  /**
   A closed circuit's streak is below the threshold and within the burst, and its last outcome is the last failure.
   */
  predicate ClosedBacked(p: Policy, e: Entry, h: seq<Mark>) {
    && 0 <= e.failureStreak < p.threshold && e.failureStreak <= Burst(h, p.cooldown)
    && (e.failureStreak > 0 ==> e.availability == Degraded && e.lastFailureAt == h[|h| - 1].at != ZERO_TIME)
  }

  predicate StreakBacked(p: Policy, e: Entry, h: seq<Mark>, since: nat) {
    if e.availability == Unavailable then OpenBacked(p, e, h, since) else ClosedBacked(p, e, h)
  }

  predicate Backed(p: Policy, s: Run) {
    forall key :: key in s.entries ==> StreakBacked(p, s.entries[key], History(s, key), OpenedAt(s, key))
  }

  predicate Clocked(e: Event) {
    e.now != ZERO_TIME
  }

  /** A failed probe of an open circuit: one more failure since it opened, one more doubling. */
  lemma OpenFails(p: Policy, e: Entry, who: Ident, h: seq<Mark>, since: nat, now: Time)
    requires p.Valid() && e.availability == Unavailable && OpenBacked(p, e, h, since)
    ensures var e' := Outcome(p, e, who, ProviderFailure, now);
            e'.availability == Unavailable && OpenBacked(p, e', h + [Mark(false, now)], since)
  {
    var h' := h + [Mark(false, now)];
    assert h'[..since] == h[..since];
  }

  /** A failure that opens the circuit completes a burst, and the streak is exactly the threshold. */
  lemma ClosedFails(p: Policy, e: Entry, who: Ident, h: seq<Mark>, now: Time)
    requires p.Valid() && e.availability != Unavailable && ClosedBacked(p, e, h) && now != ZERO_TIME
    ensures var e' := Outcome(p, e, who, ProviderFailure, now);
            var h' := h + [Mark(false, now)];
            if e'.availability == Unavailable then OpenBacked(p, e', h', |h'|) else ClosedBacked(p, e', h')
  {
    var h' := h + [Mark(false, now)];
    assert h'[..|h'| - 1] == h;
    assert |h| > 0 ==> h'[|h'| - 2] == h[|h| - 1];
    var e' := Outcome(p, e, who, ProviderFailure, now);
    assert e'.failureStreak <= Burst(h', p.cooldown);
    if e'.availability == Unavailable {
      assert e'.failureStreak == p.threshold;
      BurstMeans(h', p.cooldown, p.threshold);
      assert h'[..|h'|] == h';
      assert Pow2(0) == 1;
    }
  }

  lemma OutcomeBacked(p: Policy, e: Entry, who: Ident, h: seq<Mark>, since: nat, v: Verdict, now: Time)
    requires p.Valid() && StreakBacked(p, e, h, since) && now != ZERO_TIME
    ensures var e' := Outcome(p, e, who, v, now);
            var h' := if v.CallerFailure? then h else h + [Mark(v.Success?, now)];
            StreakBacked(p, e', h', if Opens(e, e') then |h'| else since)
  {
    if v.ProviderFailure? {
      if e.availability == Unavailable {
        OpenFails(p, e, who, h, since, now);
      } else {
        ClosedFails(p, e, who, h, now);
      }
    }
  }

  lemma BackedStep(p: Policy, s: Run, e: Event)
    requires p.Valid() && Backed(p, s) && Clocked(e)
    ensures Backed(p, Apply(p, s, e))
  {
    match e
    case Acquire(call, who, c, now) => BackedAcquire(p, s, call, who, c, now);
    case Release(call, now) => BackedRelease(p, s, call, now);
    case Record(call, v, now) => BackedRecord(p, s, call, v, now);
  }

  lemma BackedRecord(p: Policy, s: Run, call: nat, v: Verdict, now: Time)
    requires p.Valid() && Backed(p, s) && now != ZERO_TIME
    ensures Backed(p, ApplyRecord(p, s, call, v, now))
  {
    if call in s.open {
      var key := s.open[call].key;
      OutcomeBacked(p, Stored(s.entries, key), s.open[call], History(s, key), OpenedAt(s, key), v, now);
    }
  }

  lemma BackedAcquire(p: Policy, s: Run, call: nat, who: Ident, c: Candidate, now: Time)
    requires p.Valid() && Backed(p, s)
    ensures Backed(p, ApplyAcquire(p, s, call, who, c, now))
  {
  }

  lemma SameStreak(p: Policy, e: Entry, e': Entry, h: seq<Mark>, since: nat)
    requires StreakBacked(p, e, h, since) && e'.availability == e.availability && e'.failureStreak == e.failureStreak
    requires e'.lastFailureAt == e.lastFailureAt && e'.cooldownUntil == e.cooldownUntil
    ensures StreakBacked(p, e', h, since)
  {
  }

  lemma BackedRelease(p: Policy, s: Run, call: nat, now: Time)
    requires Backed(p, s)
    ensures Backed(p, ApplyRelease(s, call, now))
  {
    var s' := ApplyRelease(s, call, now);
    forall key | key in s'.entries
      ensures StreakBacked(p, s'.entries[key], History(s', key), OpenedAt(s', key))
    {
      SameStreak(p, s.entries[key], s'.entries[key], History(s, key), OpenedAt(s, key));
    }
  }

  lemma {:induction false} BackedExec(p: Policy, s: Run, es: seq<Event>)
    requires p.Valid() && Backed(p, s) && forall e :: e in es ==> Clocked(e)
    ensures Backed(p, Exec(p, s, es))
    decreases es
  {
    if es != [] {
      BackedStep(p, s, es[0]);
      BackedExec(p, Apply(p, s, es[0]), es[1..]);
    }
  }

  /**
   Whenever an outcome opens a closed circuit, it is a counted failure, the key's last `threshold` counted outcomes
   are failures with no success between them and every gap shorter than the cooldown, and the circuit opens for
   exactly one cooldown.
   */
  lemma OpensAfterBurst(p: Policy, es: seq<Event>, call: nat, v: Verdict, now: Time)
    requires p.Valid() && now != ZERO_TIME && forall e :: e in es ==> Clocked(e)
    requires var s := Exec(p, IDLE, es);
             call in s.open &&
             var who := s.open[call];
             Opens(Stored(s.entries, who.key), Outcome(p, Stored(s.entries, who.key), who, v, now))
    ensures var s := Exec(p, IDLE, es);
            var s', key := ApplyRecord(p, s, call, v, now), s.open[call].key;
            var e := s'.entries[key];
            && v.ProviderFailure? && EndsInBurst(History(s', key), p.threshold, p.cooldown)
            && e.failureStreak == p.threshold && e.cooldownUntil == now + p.cooldown
  {
    BackedExec(p, IDLE, es);
    var s := Exec(p, IDLE, es);
    var key := s.open[call].key;
    var h := History(s, key);
    OutcomeBacked(p, Stored(s.entries, key), s.open[call], h, OpenedAt(s, key), v, now);
    var h' := h + [Mark(false, now)];
    assert h'[..|h'|] == h' && Pow2(0) == 1;
  }

  /**
   In every reachable state an unavailable entry's cooldown is min(maxCooldown, cooldown * 2^n) after its last
   failure, where n = streak - threshold is the number of counted outcomes since the circuit opened, all failures,
   and it opened after a burst of `threshold` failures.
   */
  lemma CooldownsDouble(p: Policy, es: seq<Event>, key: string)
    requires p.Valid() && forall e :: e in es ==> Clocked(e)
    requires var s := Exec(p, IDLE, es); key in s.entries && s.entries[key].availability == Unavailable
    ensures var s := Exec(p, IDLE, es);
            var e, h, since := s.entries[key], History(s, key), OpenedAt(s, key);
            && p.threshold <= since <= |h| && EndsInBurst(h[..since], p.threshold, p.cooldown)
            && (forall i :: since <= i < |h| ==> !h[i].success)
            && e.failureStreak - p.threshold == |h| - since && e.lastFailureAt == h[|h| - 1].at
            && e.cooldownUntil == e.lastFailureAt + Min(p.cooldown * Pow2(e.failureStreak - p.threshold), p.maxCooldown)
  {
    BackedExec(p, IDLE, es);
  }
}
