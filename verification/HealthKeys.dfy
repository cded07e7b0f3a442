/**
 Entries are stored under account, model and provider joined with '|', so two accounts may share
 a key. Account totals count the open calls of their account in every run over a set of candidates
 exactly when no two of them do.
 */
module HealthKeys {
  import opened Text
  import opened Health
  import opened HealthRuns

  /** Candidates that share a key belong to one account; a host can compare the strings. */
  ghost predicate KeysTellAccounts(cs: set<Candidate>) {
    forall c, d :: c in cs && d in cs && IdentOf(c).key == IdentOf(d).key ==> IdentOf(c).account == IdentOf(d).account
  }

  /** Every admission is asked for a candidate of the set. */
  predicate RunOver(cs: set<Candidate>, es: seq<Event>) {
    forall i :: 0 <= i < |es| && es[i].Acquire? ==> es[i].candidate in cs && es[i].who == IdentOf(es[i].candidate)
  }

  /** The store's total of the account is the number of its open calls. */
  ghost predicate TotalRight(p: Policy, es: seq<Event>, account: string) {
    var s := Exec(p, IDLE, es);
    AccountTotal(s.entries, account) == |OpenOf(s.open, account)|
  }

  // ---- keys that tell accounts apart make a fleet -------------------------------------------------------

  ghost function AccountOfKey(cs: set<Candidate>, key: string): string {
    if exists c :: c in cs && IdentOf(c).key == key then
      var c :| c in cs && IdentOf(c).key == key;
      IdentOf(c).account
    else ""
  }

  lemma AccountOfKeyIs(cs: set<Candidate>, c: Candidate)
    requires KeysTellAccounts(cs) && c in cs
    ensures AccountOfKey(cs, IdentOf(c).key) == IdentOf(c).account
  {
  }

  /** The fleet of a candidate set, with a limit for one account. */
  ghost function FleetOf(cs: set<Candidate>, account: string, limit: int): Fleet {
    Fleet(k => AccountOfKey(cs, k), a => if a == account then limit else 0)
  }

  /** The limit is none, or every candidate of the account enforces it. */
  predicate EnforcesAccount(cs: set<Candidate>, account: string, limit: int) {
    limit > 0 ==> forall c :: c in cs && IdentOf(c).account == account ==> 0 < c.accountMaxConcurrency <= limit
  }

  lemma RunOfFleet(cs: set<Candidate>, es: seq<Event>, account: string, limit: int)
    requires KeysTellAccounts(cs) && RunOver(cs, es) && EnforcesAccount(cs, account, limit)
    ensures forall e :: e in es ==> FleetEvent(FleetOf(cs, account, limit), e)
  {
    forall e | e in es
      ensures FleetEvent(FleetOf(cs, account, limit), e)
    {
      if e.Acquire? {
        AccountOfKeyIs(cs, e.candidate);
      }
    }
  }

  /** Where keys tell accounts apart, the fixed limit of any account holds in every run. */
  lemma AccountLimitHolds(p: Policy, cs: set<Candidate>, es: seq<Event>, account: string, limit: int)
    requires KeysTellAccounts(cs) && RunOver(cs, es) && EnforcesAccount(cs, account, limit)
    ensures var s := Exec(p, IDLE, es);
            && (limit > 0 ==> |OpenOf(s.open, account)| <= limit)
            && AccountTotal(s.entries, account) == |OpenOf(s.open, account)|
  {
    RunOfFleet(cs, es, account, limit);
    AccountLimitsHold(p, FleetOf(cs, account, limit), es, account);
  }

  // ---- keys that do not ---------------------------------------------------------------------------------

  /** A call of a fresh key is admitted whatever the candidate's limits. */
  lemma FreshAdmits(p: Policy, entries: map<string, Entry>, who: Ident, c: Candidate, now: Time)
    requires Stored(entries, who.key) == ZERO_ENTRY || IdleEntry(Stored(entries, who.key))
    requires AccountTotal(entries, who.account) == 0
    ensures Admits(p, entries, who, c, now)
  {
  }

  predicate IdleEntry(e: Entry) {
    && e.availability == Available && e.inFlight == 0 && !e.quotaExhausted && e.quotaRemaining == 0
    && e.cooldownUntil == ZERO_TIME
  }

  lemma SharedKeyMiscounts(p: Policy, d: Ident, dc: Candidate, c: Ident, cc: Candidate)
    requires c.key == d.key && c.account != d.account && d.account != ""
    ensures var es := [Acquire(0, d, dc, 1), Release(0, 1), Acquire(1, c, cc, 1)];
            var s := Exec(p, IDLE, es);
            AccountTotal(s.entries, c.account) == 0 && OpenOf(s.open, c.account) == {1}
  {
    var es := [Acquire(0, d, dc, 1), Release(0, 1), Acquire(1, c, cc, 1)];
    FreshAdmits(p, map[], d, dc, 1);
    var s1 := Apply(p, IDLE, es[0]);
    var s2 := Apply(p, s1, es[1]);
    assert s2.open == map[] && IdleEntry(s2.entries[d.key]) && s2.entries[d.key].accountAlias == d.account;
    assert s2.entries == map[][d.key := s2.entries[d.key]];
    TotalUpdate(map[], c.account, d.key, s2.entries[d.key]);
    FreshAdmits(p, s2.entries, c, cc, 1);
    var s3 := Apply(p, s2, es[2]);
    assert s3.entries == map[][d.key := s3.entries[d.key]];
    TotalUpdate(map[], c.account, d.key, s3.entries[d.key]);
    assert Exec(p, s2, es[2..]) == s3;
    assert Exec(p, s1, es[1..]) == s3;
  }

  lemma SharedKeyRun(p: Policy, cs: set<Candidate>, c: Candidate, d: Candidate)
    returns (es: seq<Event>, account: string)
    requires c in cs && d in cs && IdentOf(c).key == IdentOf(d).key && IdentOf(c).account != IdentOf(d).account
    ensures RunOver(cs, es) && !TotalRight(p, es, account)
  {
    var i, j := IdentOf(c), IdentOf(d);
    if j.account != "" {
      es, account := [Acquire(0, j, d, 1), Release(0, 1), Acquire(1, i, c, 1)], i.account;
      SharedKeyMiscounts(p, j, d, i, c);
    } else {
      es, account := [Acquire(0, i, c, 1), Release(0, 1), Acquire(1, j, d, 1)], j.account;
      SharedKeyMiscounts(p, i, c, j, d);
    }
  }

  /**
   Over a set of candidates the account totals are right in every run if and only if candidates that share a key
   belong to one account.
   */
  lemma TotalsRightIff(p: Policy, cs: set<Candidate>)
    ensures (forall es, account :: RunOver(cs, es) ==> TotalRight(p, es, account)) <==> KeysTellAccounts(cs)
  {
    if KeysTellAccounts(cs) {
      forall es, account | RunOver(cs, es)
        ensures TotalRight(p, es, account)
      {
        AccountLimitHolds(p, cs, es, account, 0);
      }
    } else {
      var c, d :| c in cs && d in cs && IdentOf(c).key == IdentOf(d).key && IdentOf(c).account != IdentOf(d).account;
      var es, account := SharedKeyRun(p, cs, c, d);
    }
  }

  // ---- the separator ------------------------------------------------------------------------------------

  lemma KeySplit(a: string, m: string, p: string)
    ensures a + "|" + m + "|" + p == a + "|" + (m + "|" + p)
  {
  }

  /** Candidates whose account aliases contain no '|' share a key only within one account. */
  lemma KeyIdentifiesAccount(c: Candidate, d: Candidate)
    requires '|' !in Trim(c.accountAlias) && '|' !in Trim(d.accountAlias) && IdentOf(c).key == IdentOf(d).key
    ensures IdentOf(c).account == IdentOf(d).account
  {
    var i, j := IdentOf(c), IdentOf(d);
    KeySplit(i.account, i.model, i.provider);
    KeySplit(j.account, j.model, j.provider);
    assert "|" == ['|'];
    SeparatorSplits('|', i.account, i.model + "|" + i.provider, j.account, j.model + "|" + j.provider);
  }

  /** So no alias with the separator is enough. */
  lemma PlainAliasesTell(cs: set<Candidate>)
    requires forall c :: c in cs ==> '|' !in Trim(c.accountAlias)
    ensures KeysTellAccounts(cs)
  {
    forall c, d | c in cs && d in cs && IdentOf(c).key == IdentOf(d).key
      ensures IdentOf(c).account == IdentOf(d).account
    {
      KeyIdentifiesAccount(c, d);
    }
  }

  function Plain(account: string, model: string, accountMax: int): Candidate {
    Candidate(Model(model, "p", false, SimpleLevel, false, false, ShortContext, 0, 0, 0), account, false, accountMax, 0,
              Unset, 0, 0, 0, false, 0, ZERO_TIME)
  }

  const PIPED := Plain("a|b", "c", 0)
  const VICTIM := Plain("a", "b|c", 1)

  /** With a '|' inside an account alias two accounts share a key ... */
  lemma PipeSharesKey()
    ensures IdentOf(PIPED) == Ident("a|b|c|p", "a|b", "c", "p")
    ensures IdentOf(VICTIM) == Ident("a|b|c|p", "a", "b|c", "p")
  {
    assert Trim("a|b") == "a|b" && Trim("c") == "c" && Trim("p") == "p" && Trim("a") == "a" && Trim("b|c") == "b|c";
    assert "a|b" + "|" + "c" + "|" + "p" == "a|b|c|p" == "a" + "|" + "b|c" + "|" + "p";
  }

  lemma PipeAdmits(p: Policy, s: Run, e: Entry, call: nat)
    requires s.entries == map["a|b|c|p" := e] && e.accountAlias == "a|b" && e.availability == Available
    requires call !in s.open
    requires e.maxConcurrency == 0 && e.quotaRemaining == 0 && !e.quotaExhausted && e.cooldownUntil == ZERO_TIME
    ensures var who := Ident("a|b|c|p", "a", "b|c", "p");
            && Admits(p, s.entries, who, VICTIM, 1)
            && ApplyAcquire(p, s, call, who, VICTIM, 1).open == s.open[call := who]
            && ApplyAcquire(p, s, call, who, VICTIM, 1).entries ==
               map["a|b|c|p" := Admitted(p, s.entries, who, 1)["a|b|c|p"]]
  {
    TotalUpdate(map[], "a", "a|b|c|p", e);
    assert map[]["a|b|c|p" := e] == s.entries;
    assert "a|b" != "a" by { assert |"a|b"| == 3 && |"a"| == 1; }
  }

  /** ... and the calls of one are counted for the other: account "a" gets two calls past its limit of one. */
  lemma PipeEvadesAccountLimit(p: Policy)
    ensures var a, b := IdentOf(PIPED), IdentOf(VICTIM);
            var first := ApplyAcquire(p, IDLE, 0, a, PIPED, 1);
            var s := ApplyAcquire(p, ApplyAcquire(p, first, 1, b, VICTIM, 1), 2, b, VICTIM, 1);
            VICTIM.accountMaxConcurrency == 1 && OpenOf(s.open, "a") == {1, 2}
  {
    PipeSharesKey();
    var a, b := IdentOf(PIPED), IdentOf(VICTIM);
    var s1 := ApplyAcquire(p, IDLE, 0, a, PIPED, 1);
    PipeAdmits(p, s1, s1.entries["a|b|c|p"], 1);
    var s2 := ApplyAcquire(p, s1, 1, b, VICTIM, 1);
    PipeAdmits(p, s2, s2.entries["a|b|c|p"], 2);
    assert |"a|b"| == 3 && |"a"| == 1;
  }
}
