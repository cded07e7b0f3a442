/**
 RestoreProjection: expands collapse summaries back into what they replaced, recursively.
 Any chain of incremental deep compressions restores to the full history, whatever the
 budgets, the summarizer and the window starts were.
 */
module ContextRestore {
  import opened Wrappers
  import opened ContextMessage
  import opened ContextWindow
  import opened ContextCompress

  predicate Expandable(m: Message, byID: map<string, Collapse>, expanding: set<string>) {
    CollapseID(m).Some? && CollapseID(m).value !in expanding && CollapseID(m).value in byID
  }

  /** Terminates on every input: an expansion uses up one collapse ID, cyclic records included. */
  function Restored(ms: seq<Message>, byID: map<string, Collapse>, expanding: set<string>): seq<Message>
    decreases byID.Keys - expanding, |ms|
  {
    if ms == [] then []
    else
      var head :=
        if Expandable(ms[0], byID, expanding) then
          var id := CollapseID(ms[0]).value;
          assert id in byID.Keys - expanding && id !in byID.Keys - (expanding + {id});
          Restored(byID[id].originals, byID, expanding + {id})
        else [ms[0]];
      head + Restored(ms[1..], byID, expanding)
  }

  /** Records by ID; of several with one ID the last counts, and records without an ID are ignored. */
  function ByID(cs: seq<Collapse>): map<string, Collapse> {
    if cs == [] then map[]
    else
      var last := cs[|cs| - 1];
      var rest := ByID(cs[..|cs| - 1]);
      if last.id == "" then rest else rest[last.id := last]
  }

  lemma {:induction false} RestoredConcat(a: seq<Message>, b: seq<Message>, byID: map<string, Collapse>,
                                          expanding: set<string>)
    ensures Restored(a + b, byID, expanding) == Restored(a, byID, expanding) + Restored(b, byID, expanding)
    decreases |a|
  {
    if a == [] {
      assert a + b == b;
    } else {
      assert (a + b)[0] == a[0] && (a + b)[1..] == a[1..] + b;
      RestoredConcat(a[1..], b, byID, expanding);
    }
  }

  /** The loop of restore, with the set of expanding IDs it shares with its recursive calls. */
  class Restorer {
    var expanding: set<string>

    constructor ()
      ensures expanding == {}
    {
      expanding := {};
    }

    method Restore(messages: seq<Message>, byID: map<string, Collapse>) returns (restored: seq<Message>)
      modifies this
      ensures expanding == old(expanding) && restored == Restored(messages, byID, old(expanding))
      decreases byID.Keys - expanding, |messages|
    {
      restored := [];
      var i := 0;
      while i < |messages|
        invariant 0 <= i <= |messages| && expanding == old(expanding)
        invariant restored == Restored(messages[..i], byID, expanding)
      {
        var msg := messages[i];
        var id := CollapseID(msg);
        assert messages[..i + 1] == messages[..i] + [msg];
        RestoredConcat(messages[..i], [msg], byID, expanding);
        i := i + 1;
        if id.Some? && id.value !in expanding && id.value in byID {
          assert id.value in byID.Keys - expanding && id.value !in byID.Keys - (expanding + {id.value});
          expanding := expanding + {id.value};
          var inner := Restore(byID[id.value].originals, byID);
          restored := restored + inner;
          expanding := expanding - {id.value};
          continue;
        }
        restored := restored + [msg];
      }
      assert messages[..i] == messages;
    }
  }

  method RestoreProjection(messages: seq<Message>, collapses: seq<Collapse>) returns (restored: seq<Message>)
    ensures restored == Restored(messages, ByID(collapses), {})
  {
    var byID: map<string, Collapse> := map[];
    for i := 0 to |collapses|
      invariant byID == ByID(collapses[..i])
    {
      assert collapses[..i + 1][..i] == collapses[..i];
      if collapses[i].id != "" {
        byID := byID[collapses[i].id := collapses[i]];
      }
    }
    assert collapses[..|collapses|] == collapses;
    var restorer := new Restorer();
    restored := restorer.Restore(messages, byID);
  }

  // ---- chains of collapses ------------------------------------------------------------------------

  /** An ordinary message: not a summary, no collapse ID, not a tool reply. */
  predicate Plain(m: Message) {
    !IsSummary(m) && CollapseID(m).None? && m.role != RoleTool
  }

  predicate DistinctIDs(cs: seq<Collapse>) {
    forall i, j :: 0 <= i < j < |cs| ==> cs[i].id != cs[j].id
  }

  /** Collapse k replaces the summary of collapse k-1, if any, and some plain messages. */
  predicate Link(cs: seq<Collapse>, k: nat)
    requires k < |cs|
  {
    && cs[k].id != "" && CollapseID(cs[k].summary) == Some(cs[k].id)
    && IsSummary(cs[k].summary) && cs[k].summary.role == RoleSystem
    && (k > 0 ==> cs[k].originals != [] && cs[k].originals[0] == cs[k - 1].summary)
    && forall m :: m in Own(cs, k) ==> Plain(m)
  }

  function Own(cs: seq<Collapse>, k: nat): seq<Message>
    requires k < |cs|
  {
    if k > 0 && cs[k].originals != [] then cs[k].originals[1..] else cs[k].originals
  }

  predicate Chained(cs: seq<Collapse>) {
    forall k :: 0 <= k < |cs| ==> Link(cs, k)
  }

  /** Everything the first n collapses removed from view, in order. */
  function Removed(cs: seq<Collapse>, n: nat): seq<Message>
    requires n <= |cs|
  {
    if n == 0 then [] else Removed(cs, n - 1) + Own(cs, n - 1)
  }

  lemma {:induction false} PlainRestored(ms: seq<Message>, byID: map<string, Collapse>, expanding: set<string>)
    requires forall m :: m in ms ==> CollapseID(m).None?
    ensures Restored(ms, byID, expanding) == ms
    decreases |ms|
  {
    if ms != [] {
      assert ms[0] in ms;
      PlainRestored(ms[1..], byID, expanding);
      assert ms == [ms[0]] + ms[1..];
    }
  }

  /** The newest summary of a chain expands to everything the chain removed. */
  lemma {:induction false} ChainRestored(cs: seq<Collapse>, k: nat, byID: map<string, Collapse>, expanding: set<string>)
    requires Chained(cs) && DistinctIDs(cs) && k < |cs|
    requires forall j :: 0 <= j <= k ==> cs[j].id in byID && byID[cs[j].id] == cs[j] && cs[j].id !in expanding
    ensures Restored([cs[k].summary], byID, expanding) == Removed(cs, k + 1)
    decreases k
  {
    assert Link(cs, k);
    var id := cs[k].id;
    var inner := expanding + {id};
    assert Restored([cs[k].summary], byID, expanding)
           == Restored(cs[k].originals, byID, inner) + Restored([], byID, expanding);
    PlainRestored(Own(cs, k), byID, inner);
    if k > 0 {
      assert cs[k].originals == [cs[k - 1].summary] + Own(cs, k);
      RestoredConcat([cs[k - 1].summary], Own(cs, k), byID, inner);
      ChainRestored(cs, k - 1, byID, inner);
    }
  }

  lemma {:induction false} ByIDFinds(cs: seq<Collapse>, j: nat)
    requires DistinctIDs(cs) && j < |cs| && forall k :: 0 <= k < |cs| ==> cs[k].id != ""
    ensures cs[j].id in ByID(cs) && ByID(cs)[cs[j].id] == cs[j]
  {
    if j < |cs| - 1 {
      ByIDFinds(cs[..|cs| - 1], j);
    }
  }

  // ---- incremental compression ----------------------------------------------------------------------

  /** One round: new conversation arrives, and Compress keeps the conversation from `cut` on. */
  datatype Round = Round(added: seq<Message>, cut: nat, over: bool, reply: Reply)

  datatype View = View(messages: seq<Message>, collapses: seq<Collapse>)

  function Input(c: Config, v: View, round: Round): seq<Message> {
    ProjectTools(c, v.messages + round.added)
  }

  function CutOf(c: Config, v: View, round: Round): nat {
    var n := |Select(Input(c, v, round), ConversationClass)|;
    if round.cut < n then round.cut else n
  }

  /** A round whose summarizer fails leaves the caller with the messages it had. */
  function After(c: Config, v: View, round: Round): View {
    match CompressAt(c, Input(c, v, round), CutOf(c, v, round), round.over, round.reply)
    case Err(_) => View(v.messages + round.added, v.collapses)
    case Ok(out) => View(out.messages, v.collapses + out.collapses)
  }

  function Rounds(c: Config, v: View, rounds: seq<Round>): View
    decreases rounds
  {
    if rounds == [] then v else Rounds(c, After(c, v, rounds[0]), rounds[1..])
  }

  function Added(rounds: seq<Round>): seq<Message> {
    if rounds == [] then [] else rounds[0].added + Added(rounds[1..])
  }

  predicate Conversation(ms: seq<Message>) {
    forall m :: m in ms ==> Plain(m) && m.role != RoleSystem
  }

  predicate SystemPrefix(ms: seq<Message>) {
    forall m :: m in ms ==> Plain(m) && m.role == RoleSystem
  }

  function Newest(cs: seq<Collapse>): seq<Message> {
    if cs == [] then [] else [cs[|cs| - 1].summary]
  }

  /** The view is the system prefix, the newest summary and the kept conversation. */
  predicate ViewOf(v: View, system: seq<Message>, recent: seq<Message>, history: seq<Message>) {
    && SystemPrefix(system) && Conversation(recent) && Chained(v.collapses)
    && v.messages == system + Newest(v.collapses) + recent
    && history == Removed(v.collapses, |v.collapses|) + recent
  }

  lemma {:induction false} RemovedPrefix(cs: seq<Collapse>, more: seq<Collapse>, n: nat)
    requires n <= |cs|
    ensures Removed(cs + more, n) == Removed(cs, n)
  {
    if n > 0 {
      RemovedPrefix(cs, more, n - 1);
      assert (cs + more)[n - 1] == cs[n - 1];
      assert n > 1 ==> (cs + more)[n - 2] == cs[n - 2];
    }
  }

  lemma NoToolsUnchanged(c: Config, ms: seq<Message>)
    requires forall m :: m in ms ==> m.role != RoleTool
    ensures ProjectTools(c, ms) == ms
  {
  }

  lemma InputParts(c: Config, v: View, round: Round, system: seq<Message>, recent: seq<Message>, history: seq<Message>)
    requires ViewOf(v, system, recent, history) && Conversation(round.added)
    ensures Input(c, v, round) == v.messages + round.added
    ensures Select(Input(c, v, round), SystemClass) == system
    ensures Select(Input(c, v, round), SummaryClass) == Newest(v.collapses)
    ensures Select(Input(c, v, round), ConversationClass) == recent + round.added
  {
    assert v.collapses != [] ==> Link(v.collapses, |v.collapses| - 1);
    var ms := v.messages + round.added;
    NoToolsUnchanged(c, ms);
    Regroup(system, Newest(v.collapses), recent, round.added);
    SelectOutput(system, Newest(v.collapses), recent + round.added, SystemClass);
    SelectOutput(system, Newest(v.collapses), recent + round.added, SummaryClass);
    SelectOutput(system, Newest(v.collapses), recent + round.added, ConversationClass);
  }

  lemma LinkOld(cs: seq<Collapse>, x: Collapse, k: nat)
    requires k < |cs| && Link(cs, k)
    ensures Link(cs + [x], k)
  {
    assert (cs + [x])[k] == cs[k] && (k > 0 ==> (cs + [x])[k - 1] == cs[k - 1]);
    assert Own(cs + [x], k) == Own(cs, k);
  }

  lemma OwnNew(cs: seq<Collapse>, x: Collapse, dropped: seq<Message>)
    requires x.originals == Newest(cs) + dropped
    ensures Own(cs + [x], |cs|) == dropped && (cs + [x])[|cs|] == x
    ensures cs != [] ==> x.originals != [] && x.originals[0] == (cs + [x])[|cs| - 1].summary
  {
  }

  /** Appending the collapse a compression records extends the chain. */
  lemma ChainExtends(cs: seq<Collapse>, x: Collapse, dropped: seq<Message>)
    requires Chained(cs) && Conversation(dropped)
    requires x.id != "" && CollapseID(x.summary) == Some(x.id) && IsSummary(x.summary) && x.summary.role == RoleSystem
    requires x.originals == Newest(cs) + dropped
    ensures Chained(cs + [x]) && Removed(cs + [x], |cs| + 1) == Removed(cs, |cs|) + dropped
  {
    OwnNew(cs, x, dropped);
    forall k | 0 <= k < |cs + [x]|
      ensures Link(cs + [x], k)
    {
      if k < |cs| {
        LinkOld(cs, x, k);
      }
    }
    RemovedPrefix(cs, [x], |cs|);
  }

  /** What a compression that drops something leaves behind. */
  lemma DropOutcome(c: Config, ms: seq<Message>, cut: nat, over: bool, reply: Reply)
    requires c.deep && 0 < cut <= |Select(ms, ConversationClass)| && CompressAt(c, ms, cut, over, reply).Ok?
    ensures var out := CompressAt(c, ms, cut, over, reply).value;
            var previous, conversation := Select(ms, SummaryClass), Select(ms, ConversationClass);
            && |out.collapses| == 1
            && var x := out.collapses[0];
            && x.id != "" && CollapseID(x.summary) == Some(x.id) && IsSummary(x.summary) && x.summary.role == RoleSystem
            && x.originals == previous + conversation[..cut]
            && out.messages == Select(ms, SystemClass) + [x.summary] + conversation[cut..]
  {
    SummaryFacts(c, Select(ms, SummaryClass), Select(ms, ConversationClass)[..cut], reply);
  }

  lemma Recut<T>(removed: seq<T>, recent: seq<T>, added: seq<T>, cut: nat)
    requires cut <= |recent + added|
    ensures removed + (recent + added)[..cut] + (recent + added)[cut..] == removed + recent + added
  {
  }

  lemma Regroup<T>(a: seq<T>, b: seq<T>, c: seq<T>, d: seq<T>)
    ensures a + b + c + d == a + b + (c + d)
  {
  }

  lemma ConversationSlices(recent: seq<Message>, added: seq<Message>, cut: nat)
    requires Conversation(recent) && Conversation(added) && cut <= |recent + added|
    ensures Conversation((recent + added)[..cut]) && Conversation((recent + added)[cut..])
  {
  }

  lemma ViewDrops(v: View, system: seq<Message>, recent: seq<Message>, history: seq<Message>, added: seq<Message>,
                  x: Collapse, cut: nat)
    requires ViewOf(v, system, recent, history) && Conversation(added) && cut <= |recent + added|
    requires x.id != "" && CollapseID(x.summary) == Some(x.id) && IsSummary(x.summary) && x.summary.role == RoleSystem
    requires x.originals == Newest(v.collapses) + (recent + added)[..cut]
    ensures ViewOf(View(system + [x.summary] + (recent + added)[cut..], v.collapses + [x]),
                   system, (recent + added)[cut..], history + added)
  {
    ConversationSlices(recent, added, cut);
    ChainExtends(v.collapses, x, (recent + added)[..cut]);
    Recut(Removed(v.collapses, |v.collapses|), recent, added, cut);
    assert Newest(v.collapses + [x]) == [x.summary];
  }

  lemma RoundDrops(c: Config, v: View, round: Round, system: seq<Message>, recent: seq<Message>, history: seq<Message>)
    requires c.deep && ViewOf(v, system, recent, history) && Conversation(round.added)
    requires CutOf(c, v, round) > 0
    requires CompressAt(c, Input(c, v, round), CutOf(c, v, round), round.over, round.reply).Ok?
    ensures CutOf(c, v, round) <= |recent + round.added|
    ensures ViewOf(After(c, v, round), system, (recent + round.added)[CutOf(c, v, round)..], history + round.added)
    ensures v.collapses <= After(c, v, round).collapses
  {
    InputParts(c, v, round, system, recent, history);
    DropOutcome(c, Input(c, v, round), CutOf(c, v, round), round.over, round.reply);
    var out := CompressAt(c, Input(c, v, round), CutOf(c, v, round), round.over, round.reply).value;
    assert out.collapses == [out.collapses[0]];
    ViewDrops(v, system, recent, history, round.added, out.collapses[0], CutOf(c, v, round));
  }

  lemma RoundKeeps(c: Config, v: View, round: Round, system: seq<Message>, recent: seq<Message>, history: seq<Message>)
    requires ViewOf(v, system, recent, history) && Conversation(round.added)
    requires CutOf(c, v, round) == 0 ||
             CompressAt(c, Input(c, v, round), CutOf(c, v, round), round.over, round.reply).Err?
    ensures After(c, v, round) == View(v.messages + round.added, v.collapses)
  {
    if CutOf(c, v, round) == 0 {
      InputParts(c, v, round, system, recent, history);
      KeepOutcome(c, Input(c, v, round), 0, round.over, round.reply);
      Regroup(system, Newest(v.collapses), recent, round.added);
      assert v.collapses + [] == v.collapses;
    }
  }

  /** A compression that drops nothing only moves system messages and summaries to the front. */
  lemma KeepOutcome(c: Config, ms: seq<Message>, cut: nat, over: bool, reply: Reply)
    requires cut <= |Select(ms, ConversationClass)| && CompressAt(c, ms, cut, over, reply).Ok? && cut == 0
    ensures var out := CompressAt(c, ms, cut, over, reply).value;
            && out.collapses == []
            && out.messages == Select(ms, SystemClass) + Select(ms, SummaryClass) + Select(ms, ConversationClass)
  {
    assert Select(ms, ConversationClass)[0..] == Select(ms, ConversationClass);
  }

  lemma RoundKeepsView(c: Config, v: View, round: Round, system: seq<Message>, recent: seq<Message>,
                       history: seq<Message>)
    returns (recent': seq<Message>)
    requires c.deep && ViewOf(v, system, recent, history) && Conversation(round.added)
    ensures ViewOf(After(c, v, round), system, recent', history + round.added)
    ensures v.collapses <= After(c, v, round).collapses
  {
    if CutOf(c, v, round) > 0 && CompressAt(c, Input(c, v, round), CutOf(c, v, round), round.over, round.reply).Ok? {
      RoundDrops(c, v, round, system, recent, history);
      recent' := (recent + round.added)[CutOf(c, v, round)..];
    } else {
      RoundKeeps(c, v, round, system, recent, history);
      recent' := recent + round.added;
      assert v.messages + round.added == system + Newest(v.collapses) + recent';
    }
  }

  lemma {:induction false} RoundsKeepView(c: Config, v: View, rounds: seq<Round>, system: seq<Message>,
                                          recent: seq<Message>,
                                          history: seq<Message>)
    returns (recent': seq<Message>)
    requires c.deep && ViewOf(v, system, recent, history) && forall r :: r in rounds ==> Conversation(r.added)
    ensures ViewOf(Rounds(c, v, rounds), system, recent', history + Added(rounds))
    decreases rounds
  {
    if rounds == [] {
      recent' := recent;
      assert history + [] == history;
    } else {
      assert rounds[0] in rounds;
      var next := RoundKeepsView(c, v, rounds[0], system, recent, history);
      recent' := RoundsKeepView(c, After(c, v, rounds[0]), rounds[1..], system, next, history + rounds[0].added);
      assert history + rounds[0].added + Added(rounds[1..]) == history + Added(rounds);
    }
  }

  lemma ChainFound(cs: seq<Collapse>, j: nat)
    requires Chained(cs) && DistinctIDs(cs) && j < |cs|
    ensures cs[j].id in ByID(cs) && ByID(cs)[cs[j].id] == cs[j]
  {
    forall k | 0 <= k < |cs|
      ensures cs[k].id != ""
    {
      assert Link(cs, k);
    }
    ByIDFinds(cs, j);
  }

  lemma NewestRestored(cs: seq<Collapse>)
    requires Chained(cs) && DistinctIDs(cs)
    ensures Restored(Newest(cs), ByID(cs), {}) == Removed(cs, |cs|)
  {
    if cs != [] {
      forall j | 0 <= j < |cs|
        ensures cs[j].id in ByID(cs) && ByID(cs)[cs[j].id] == cs[j]
      {
        ChainFound(cs, j);
      }
      ChainRestored(cs, |cs| - 1, ByID(cs), {});
    }
  }

  lemma LayoutRestored(system: seq<Message>, newest: seq<Message>, recent: seq<Message>, byID: map<string, Collapse>)
    requires SystemPrefix(system) && Conversation(recent)
    ensures Restored(system + newest + recent, byID, {}) == system + Restored(newest, byID, {}) + recent
  {
    RestoredConcat(system + newest, recent, byID, {});
    RestoredConcat(system, newest, byID, {});
    PlainRestored(system, byID, {});
    PlainRestored(recent, byID, {});
  }

  /** A view built by deep compressions restores to the system prefix and the whole history. */
  lemma ViewRestored(v: View, system: seq<Message>, recent: seq<Message>, history: seq<Message>)
    requires ViewOf(v, system, recent, history) && DistinctIDs(v.collapses)
    ensures Restored(v.messages, ByID(v.collapses), {}) == system + history
  {
    LayoutRestored(system, Newest(v.collapses), recent, ByID(v.collapses));
    NewestRestored(v.collapses);
    var removed := Removed(v.collapses, |v.collapses|);
    assert system + removed + recent == system + (removed + recent);
  }

  /**
   For any chain of incremental deep compressions of a system prefix and conversation, with any budgets, window
   starts and summarizer replies, restoring with all recorded collapses gives back exactly the full history.
   */
  lemma CompressionsRestore(c: Config, system: seq<Message>, rounds: seq<Round>)
    requires c.deep && SystemPrefix(system) && forall r :: r in rounds ==> Conversation(r.added)
    requires DistinctIDs(Rounds(c, View(system, []), rounds).collapses)
    ensures var v := Rounds(c, View(system, []), rounds);
            Restored(v.messages, ByID(v.collapses), {}) == system + Added(rounds)
  {
    var v := View(system, []);
    assert v.messages == system + Newest([]) + [];
    assert ViewOf(v, system, [], []);
    var recent := RoundsKeepView(c, v, rounds, system, [], []);
    assert [] + Added(rounds) == Added(rounds);
    ViewRestored(Rounds(c, v, rounds), system, recent, Added(rounds));
  }
}
