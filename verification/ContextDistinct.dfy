/**
 Collapse IDs of one history are distinct: each later collapse names its predecessor in the list
 of IDs it digests, so two equal IDs would unwind to the first collapse, which names none. That
 takes a digest that tells the recorded ID lists apart and no message ID that looks like a summary's.
 */
module ContextDistinct {
  import opened ContextMessage
  import opened ContextWindow
  import opened ContextCompress
  import opened ContextRestore

  /** The digests of these collapses tell their ID lists apart. */
  predicate NoCollisions(c: Config, cs: seq<Collapse>) {
    forall i, j | 0 <= i < |cs| && 0 <= j < |cs| ::
      c.digest(OriginalIDs(cs[i].originals)) == c.digest(OriginalIDs(cs[j].originals)) ==>
        OriginalIDs(cs[i].originals) == OriginalIDs(cs[j].originals)
  }

  const SUMMARY_PREFIX := "summary:"

  /** The form in which a collapse lists an earlier summary. */
  predicate NamesSummary(id: string) {
    SUMMARY_PREFIX <= id
  }

  /** A collapse with the ID its originals give it, and a summary without an ID of its own. */
  predicate Named(c: Config, x: Collapse) {
    && x.originals != [] && x.summary.id == "" && IsSummary(x.summary) && CollapseID(x.summary).Some?
    && CollapseID(x.summary).value == x.id && x.id == "collapse-" + c.digest(OriginalIDs(x.originals))
  }

  lemma RoundNames(c: Config, ms: seq<Message>, cut: nat, over: bool, reply: Reply)
    requires cut <= |Select(ms, ConversationClass)| && CompressAt(c, ms, cut, over, reply).Ok?
    ensures forall x :: x in CompressAt(c, ms, cut, over, reply).value.collapses ==> Named(c, x)
  {
    if cut > 0 {
      SummaryFacts(c, Select(ms, SummaryClass), Select(ms, ConversationClass)[..cut], reply);
    }
  }

  lemma {:induction false} RoundsName(c: Config, v: View, rounds: seq<Round>)
    requires forall x :: x in v.collapses ==> Named(c, x)
    ensures forall x :: x in Rounds(c, v, rounds).collapses ==> Named(c, x)
    decreases rounds
  {
    if rounds != [] {
      var round := rounds[0];
      if CompressAt(c, Input(c, v, round), CutOf(c, v, round), round.over, round.reply).Ok? {
        RoundNames(c, Input(c, v, round), CutOf(c, v, round), round.over, round.reply);
      }
      RoundsName(c, After(c, v, round), rounds[1..]);
    }
  }

  lemma LaterNamesPredecessor(c: Config, cs: seq<Collapse>, k: nat)
    requires Chained(cs) && 0 < k < |cs| && Named(c, cs[k]) && Named(c, cs[k - 1])
    ensures OriginalIDs(cs[k].originals)[0] == SUMMARY_PREFIX + cs[k - 1].id
  {
    assert Link(cs, k);
  }

  lemma FirstNamesNone(c: Config, cs: seq<Collapse>)
    requires Chained(cs) && cs != [] && Named(c, cs[0]) && !NamesSummary(cs[0].originals[0].id)
    ensures !NamesSummary(OriginalIDs(cs[0].originals)[0])
  {
    assert Link(cs, 0);
    var m := cs[0].originals[0];
    assert m in Own(cs, 0);
    if m.id == "" {
      assert OriginalID(m, 0)[0] == 'i' && SUMMARY_PREFIX[0] == 's';
    }
  }

  lemma {:induction false} EqualIDsUnwind(c: Config, cs: seq<Collapse>, i: nat, j: nat)
    requires NoCollisions(c, cs) && Chained(cs) && i < j < |cs| && forall k :: 0 <= k < |cs| ==> Named(c, cs[k])
    requires cs[0].originals != [] && !NamesSummary(cs[0].originals[0].id)
    ensures cs[i].id != cs[j].id
    decreases i
  {
    LaterNamesPredecessor(c, cs, j);
    if cs[i].id == cs[j].id {
      SameTail("collapse-", c.digest(OriginalIDs(cs[i].originals)), c.digest(OriginalIDs(cs[j].originals)));
      if i == 0 {
        FirstNamesNone(c, cs);
      } else {
        LaterNamesPredecessor(c, cs, i);
        SameTail(SUMMARY_PREFIX, cs[i - 1].id, cs[j - 1].id);
        EqualIDsUnwind(c, cs, i - 1, j - 1);
      }
    }
  }

  lemma SameTail(prefix: string, a: string, b: string)
    requires prefix + a == prefix + b
    ensures a == b
  {
    assert (prefix + a)[|prefix|..] == a && (prefix + b)[|prefix|..] == b;
  }

  lemma {:induction false} FirstRemoved(cs: seq<Collapse>, n: nat)
    requires 0 < n <= |cs|
    ensures forall m :: m in Own(cs, 0) ==> m in Removed(cs, n)
  {
    if n > 1 {
      FirstRemoved(cs, n - 1);
    }
  }

  lemma ViewFirst(v: View, system: seq<Message>, recent: seq<Message>, history: seq<Message>)
    requires ViewOf(v, system, recent, history) && v.collapses != [] && v.collapses[0].originals != []
    ensures v.collapses[0].originals[0] in history
  {
    FirstRemoved(v.collapses, |v.collapses|);
    assert v.collapses[0].originals[0] in Own(v.collapses, 0);
  }

  /** The collapses of any chain of compressions have different IDs. */
  lemma CollapseIDsDistinct(c: Config, system: seq<Message>, rounds: seq<Round>)
    requires c.deep && SystemPrefix(system) && forall r :: r in rounds ==> Conversation(r.added)
    requires NoCollisions(c, Rounds(c, View(system, []), rounds).collapses)
    requires forall m :: m in Added(rounds) ==> !NamesSummary(m.id)
    ensures DistinctIDs(Rounds(c, View(system, []), rounds).collapses)
  {
    var start := View(system, []);
    assert start.messages == system + Newest([]) + [];
    assert ViewOf(start, system, [], []);
    var recent := RoundsKeepView(c, start, rounds, system, [], []);
    assert [] + Added(rounds) == Added(rounds);
    RoundsName(c, start, rounds);
    var v := Rounds(c, start, rounds);
    var cs := v.collapses;
    forall i, j | 0 <= i < j < |cs|
      ensures cs[i].id != cs[j].id
    {
      assert cs[0] in cs;
      ViewFirst(v, system, recent, Added(rounds));
      assert forall k :: 0 <= k < |cs| ==> cs[k] in cs;
      EqualIDsUnwind(c, cs, i, j);
    }
  }

  /** So every chain of deep compressions restores the full history. */
  lemma CompressionsRestoreAll(c: Config, system: seq<Message>, rounds: seq<Round>)
    requires c.deep && SystemPrefix(system) && forall r :: r in rounds ==> Conversation(r.added)
    requires NoCollisions(c, Rounds(c, View(system, []), rounds).collapses)
    requires forall m :: m in Added(rounds) ==> !NamesSummary(m.id)
    ensures var v := Rounds(c, View(system, []), rounds);
            Restored(v.messages, ByID(v.collapses), {}) == system + Added(rounds)
  {
    CollapseIDsDistinct(c, system, rounds);
    CompressionsRestore(c, system, rounds);
  }
}
