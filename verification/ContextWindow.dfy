/**
 The sliding-window compressor: turn boundaries, the greedy window under a two-dimensional
 budget, and the summary that replaces what is dropped.
 */
module ContextWindow {
  import opened ContextMessage

  // ---- classes of messages --------------------------------------------------------------------

  datatype Class = SummaryClass | SystemClass | ConversationClass

  function ClassOf(m: Message): Class {
    if IsSummary(m) then SummaryClass else if m.role == RoleSystem then SystemClass else ConversationClass
  }

  function Select(ms: seq<Message>, k: Class): seq<Message> {
    if ms == [] then []
    else (if ClassOf(ms[0]) == k then [ms[0]] else []) + Select(ms[1..], k)
  }

  lemma {:induction false} SelectConcat(a: seq<Message>, b: seq<Message>, k: Class)
    ensures Select(a + b, k) == Select(a, k) + Select(b, k)
  {
    if a == [] {
      assert a + b == b;
    } else {
      assert (a + b)[0] == a[0] && (a + b)[1..] == a[1..] + b;
      SelectConcat(a[1..], b, k);
    }
  }

  lemma {:induction false} SelectUniform(ms: seq<Message>, k: Class, j: Class)
    requires forall m :: m in ms ==> ClassOf(m) == k
    ensures Select(ms, j) == if j == k then ms else []
  {
    if ms != [] {
      assert ms[0] in ms;
      SelectUniform(ms[1..], k, j);
      assert ms == [ms[0]] + ms[1..];
    }
  }

  lemma {:induction false} SelectClass(ms: seq<Message>, k: Class)
    ensures forall m :: m in Select(ms, k) ==> ClassOf(m) == k
  {
    if ms != [] {
      SelectClass(ms[1..], k);
    }
  }

  /** split: real system messages, summaries of earlier compressions, and the conversation. */
  method Split(messages: seq<Message>)
    returns (system: seq<Message>, previous: seq<Message>, conversation: seq<Message>)
    ensures system == Select(messages, SystemClass)
    ensures previous == Select(messages, SummaryClass)
    ensures conversation == Select(messages, ConversationClass)
  {
    system, previous, conversation := [], [], [];
    for i := 0 to |messages|
      invariant system == Select(messages[..i], SystemClass)
      invariant previous == Select(messages[..i], SummaryClass)
      invariant conversation == Select(messages[..i], ConversationClass)
    {
      var msg := messages[i];
      assert messages[..i + 1] == messages[..i] + [msg];
      SelectConcat(messages[..i], [msg], SystemClass);
      SelectConcat(messages[..i], [msg], SummaryClass);
      SelectConcat(messages[..i], [msg], ConversationClass);
      if IsSummary(msg) {
        previous := previous + [msg];
      } else if msg.role == RoleSystem {
        system := system + [msg];
      } else {
        conversation := conversation + [msg];
      }
    }
    assert messages[..|messages|] == messages;
  }

  // ---- cost -----------------------------------------------------------------------------------

  /** Prices messages; tokens are counted only under a token limit. */
  datatype Pricing = Pricing(countTokens: Message -> int, tokensLimited: bool) {
    function One(m: Message): Cost {
      Cost(|m.content|, if tokensLimited then countTokens(m) else 0)
    }

    function Of(ms: seq<Message>): Cost {
      if ms == [] then NO_COST else One(ms[0]).Add(Of(ms[1..]))
    }

    ghost predicate NonNegative() {
      forall m :: countTokens(m) >= 0
    }
  }

  lemma CostHead(p: Pricing, m: Message, ms: seq<Message>)
    ensures p.Of([m] + ms) == p.One(m).Add(p.Of(ms))
  {
    assert ([m] + ms)[1..] == ms;
  }

  lemma {:induction false} CostConcat(p: Pricing, a: seq<Message>, b: seq<Message>)
    ensures p.Of(a + b) == p.Of(a).Add(p.Of(b))
  {
    if a == [] {
      assert a + b == b;
    } else {
      var rest := a[1..];
      assert a == [a[0]] + rest && a + b == [a[0]] + (rest + b);
      CostConcat(p, rest, b);
      CostHead(p, a[0], rest + b);
      CostHead(p, a[0], rest);
    }
  }

  lemma {:induction false} CostNonNegative(p: Pricing, ms: seq<Message>)
    requires p.NonNegative()
    ensures p.Of(ms).chars >= 0 && p.Of(ms).tokens >= 0
  {
    if ms != [] {
      CostNonNegative(p, ms[1..]);
    }
  }

  /** A longer suffix costs at least as much, so it fits no budget that a shorter one exceeds. */
  lemma LongerSuffix(p: Pricing, budget: Budget, base: Cost, ms: seq<Message>, b: nat, cut: nat)
    requires p.NonNegative() && b <= cut <= |ms|
    ensures p.Of(ms[b..]) == p.Of(ms[cut..]).Add(p.Of(ms[b..cut]))
    ensures budget.Fits(base.Add(p.Of(ms[b..]))) ==> budget.Fits(base.Add(p.Of(ms[cut..])))
  {
    assert ms[b..] == ms[b..cut] + ms[cut..];
    CostConcat(p, ms[b..cut], ms[cut..]);
    CostNonNegative(p, ms[b..cut]);
  }

  // ---- turn boundaries --------------------------------------------------------------------------

  predicate HasUser(ms: seq<Message>) {
    exists m :: m in ms && m.role == RoleUser
  }

  /** Where a kept window may start: index 0, a user message, or any non-tool message if there is no user turn. */
  predicate IsBoundary(ms: seq<Message>, i: nat) {
    i == 0 || (i < |ms| && (ms[i].role == RoleUser || (!HasUser(ms) && ms[i].role != RoleTool)))
  }

  ghost predicate Boundaries(ms: seq<Message>, bs: seq<nat>) {
    && 0 < |bs| && bs[0] == 0
    && (forall i, j :: 0 <= i < j < |bs| ==> bs[i] < bs[j])
    && (forall b: nat :: b in bs <==> IsBoundary(ms, b))
  }

  method TurnBoundaries(messages: seq<Message>) returns (boundaries: seq<nat>)
    ensures Boundaries(messages, boundaries)
  {
    var hasUser := false;
    for i := 0 to |messages|
      invariant hasUser <==> exists m :: m in messages[..i] && m.role == RoleUser
    {
      assert messages[..i + 1] == messages[..i] + [messages[i]];
      if messages[i].role == RoleUser {
        hasUser := true;
        assert messages[i] in messages[..i + 1];
      }
    }
    assert messages[..|messages|] == messages;
    assert hasUser == HasUser(messages);
    boundaries := [0];
    for i := 1 to if |messages| == 0 then 1 else |messages|
      invariant 0 < |boundaries| && boundaries[0] == 0
      invariant forall b: nat :: b in boundaries <==> b < i && IsBoundary(messages, b)
      invariant forall j, k :: 0 <= j < k < |boundaries| ==> boundaries[j] < boundaries[k]
    {
      var role := messages[i].role;
      if role == RoleUser || (!hasUser && role != RoleTool) {
        assert forall j :: 0 <= j < |boundaries| ==> boundaries[j] in boundaries;
        boundaries := boundaries + [i];
      }
    }
  }

  // ---- the greedy window ------------------------------------------------------------------------

  /** The last boundary that keeps the newest minRecent messages. */
  ghost predicate IsMandatory(ms: seq<Message>, minRecent: nat, m: nat) {
    var limit := if |ms| < minRecent then 0 else |ms| - minRecent;
    IsBoundary(ms, m) && m <= limit && forall b :: m < b <= limit ==> !IsBoundary(ms, b)
  }

  /** The earliest boundary up to the mandatory one whose suffix fits, or the mandatory one. */
  ghost predicate IsWindowStart(ms: seq<Message>, p: Pricing, budget: Budget, base: Cost, mandatory: nat, cut: nat)
    requires cut <= |ms| && mandatory <= |ms|
  {
    && IsBoundary(ms, cut) && cut <= mandatory
    && (forall b :: 0 <= b < cut && IsBoundary(ms, b) ==> !budget.Fits(base.Add(p.Of(ms[b..]))))
    && (budget.Fits(base.Add(p.Of(ms[cut..]))) || cut == mandatory)
  }

  lemma WindowStartUnique(ms: seq<Message>, p: Pricing, budget: Budget, base: Cost, m: nat, c: nat, d: nat)
    requires p.NonNegative() && m <= |ms| && c <= |ms| && d <= |ms|
    requires IsWindowStart(ms, p, budget, base, m, c) && IsWindowStart(ms, p, budget, base, m, d)
    ensures c == d
  {
    if c < d {
      LongerSuffix(p, budget, base, ms, c, m);
    } else if d < c {
      LongerSuffix(p, budget, base, ms, d, m);
    }
  }

  method MandatoryStart(messages: seq<Message>, boundaries: seq<nat>, minRecent: nat) returns (cut: nat)
    requires Boundaries(messages, boundaries)
    ensures cut in boundaries && cut <= |messages| && IsMandatory(messages, minRecent, cut)
  {
    var limit := if |messages| < minRecent then 0 else |messages| - minRecent;
    cut := 0;
    for i := 0 to |boundaries|
      invariant cut in boundaries && cut <= limit
      invariant forall j :: 0 <= j < i && boundaries[j] <= limit ==> boundaries[j] <= cut
    {
      if boundaries[i] <= limit {
        cut := boundaries[i];
      }
    }
    forall b: nat | cut < b <= limit
      ensures !IsBoundary(messages, b)
    {
      assert IsBoundary(messages, b) ==> b in boundaries;
    }
  }

  /**
   windowStart: index of the first kept message and the cost of what is kept. The mandatory start is
   reported for specification only.
   */
  method WindowStart(messages: seq<Message>, minRecent: nat, budget: Budget, p: Pricing, base: Cost)
    returns (cut: nat, kept: Cost, ghost mandatory: nat)
    ensures cut <= mandatory <= |messages| && IsBoundary(messages, cut)
    ensures !budget.Bounded() ==> cut == 0 && kept == NO_COST
    ensures budget.Bounded() ==> IsMandatory(messages, minRecent, mandatory) && kept == p.Of(messages[cut..])
    ensures budget.Bounded() && p.NonNegative() ==> IsWindowStart(messages, p, budget, base, mandatory, cut)
  {
    if !budget.Bounded() {
      return 0, NO_COST, 0;
    }
    var boundaries := TurnBoundaries(messages);
    cut := MandatoryStart(messages, boundaries, minRecent);
    mandatory := cut;
    kept := p.Of(messages[cut..]);
    var i := |boundaries|;
    while i > 0
      invariant 0 <= i <= |boundaries| && cut in boundaries && cut <= mandatory && kept == p.Of(messages[cut..])
      invariant forall j :: i <= j < |boundaries| ==> cut <= boundaries[j]
      invariant cut < mandatory ==> budget.Fits(base.Add(kept))
    {
      var b := boundaries[i - 1];
      if b < cut {
        assert messages[b..] == messages[b..cut] + messages[cut..];
        CostConcat(p, messages[b..cut], messages[cut..]);
        var next := kept.Add(p.Of(messages[b..cut]));
        if !budget.Fits(base.Add(next)) {
          if p.NonNegative() {
            CutIsFirst(messages, p, budget, base, boundaries, i, cut);
          }
          return;
        }
        cut, kept := b, next;
      }
      i := i - 1;
    }
    assert cut == 0;
  }

  /** If the nearest earlier boundary does not fit, no boundary before it does. */
  lemma CutIsFirst(ms: seq<Message>, p: Pricing, budget: Budget, base: Cost, bs: seq<nat>, i: nat, cut: nat)
    requires p.NonNegative() && Boundaries(ms, bs) && 0 < i <= |bs| && cut <= |ms|
    requires bs[i - 1] < cut && forall j :: i <= j < |bs| ==> cut <= bs[j]
    requires !budget.Fits(base.Add(p.Of(ms[bs[i - 1]..])))
    ensures forall b :: 0 <= b < cut && IsBoundary(ms, b) ==> !budget.Fits(base.Add(p.Of(ms[b..])))
  {
    forall b | 0 <= b < cut && IsBoundary(ms, b)
      ensures !budget.Fits(base.Add(p.Of(ms[b..])))
    {
      assert b in bs;
      var j :| 0 <= j < |bs| && bs[j] == b;
      assert j < i;
      LongerSuffix(p, budget, base, ms, b, bs[i - 1]);
    }
  }

  /** What a compression keeps: the window start, and whether not even the mandatory window fits. */
  ghost predicate Chosen(conversation: seq<Message>, minRecent: nat, budget: Budget, p: Pricing, base: Cost,
                         mandatory: nat, cut: nat, over: bool)
  {
    && cut <= mandatory <= |conversation|
    && (!budget.Bounded() ==> cut == 0 && !over)
    && (budget.Bounded() ==> IsMandatory(conversation, minRecent, mandatory))
    && (budget.Bounded() ==> (over <==> !budget.Fits(base.Add(p.Of(conversation[cut..])))))
    && (budget.Bounded() && p.NonNegative() ==>
          && IsWindowStart(conversation, p, budget, base, mandatory, cut)
          && (over <==> !budget.Fits(base.Add(p.Of(conversation[mandatory..])))))
  }

  method ChooseWindow(conversation: seq<Message>, minRecent: nat, budget: Budget, p: Pricing, base: Cost)
    returns (cut: nat, over: bool, ghost mandatory: nat)
    ensures Chosen(conversation, minRecent, budget, p, base, mandatory, cut, over)
    ensures cut <= |conversation| && IsBoundary(conversation, cut)
    ensures over <==> budget.Bounded() && !budget.Fits(base.Add(p.Of(conversation[cut..])))
  {
    var kept;
    cut, kept, mandatory := WindowStart(conversation, minRecent, budget, p, base);
    over := budget.Bounded() && !budget.Fits(base.Add(kept));
    if p.NonNegative() {
      LongerSuffix(p, budget, base, conversation, cut, mandatory);
    }
  }
}
