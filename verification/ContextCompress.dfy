/**
 Compress: keeps the newest whole turns that fit the budget and replaces everything older
 with one summary, which in the deep profile is a reversible collapse.
 */
module ContextCompress {
  import opened Wrappers
  import opened ContextMessage
  import opened ContextWindow

  /**
   `placeholder` renders the plain summary text, `digest` is the hash behind a collapse ID, `toolText` the
   projected text of a tool message.
   */
  datatype Config = Config(budget: Budget, deep: bool, minRecent: nat, countTokens: Option<Message -> int>,
                           placeholder: (int, int, seq<Message>) -> string, digest: seq<string> -> string,
                           toolText: Message -> string)

  /** What the host's summarizer answers: there is none, it fails, or it returns a (possibly empty) text. */
  datatype Reply = NoSummarizer | SummarizerFails | Summarized(text: string)

  datatype CompressError = TokenCounterRequired | SummarizerFailed

  datatype Output = Output(messages: seq<Message>, dropped: nat, summary: string, overBudget: bool,
                           collapses: seq<Collapse>, autoCompact: Option<string>)

  // ---- projection of tool messages --------------------------------------------------------------

  function ProjectTool(c: Config, m: Message): Message {
    if m.role == RoleTool then
      m.(content := c.toolText(m),
         metadata := m.metadata[ToolProjectedKey := Flag(true)]
                               [ToolOriginalKey := Int(|m.content|)])
    else m
  }

  function ProjectTools(c: Config, ms: seq<Message>): seq<Message> {
    seq(|ms|, i requires 0 <= i < |ms| => ProjectTool(c, ms[i]))
  }

  // ---- the summary ------------------------------------------------------------------------------

  function SumOf(ms: seq<Message>, key: Key): int {
    if ms == [] then 0 else MetadataInt(ms[0], key) + SumOf(ms[1..], key)
  }

  function ImageCount(ms: seq<Message>): nat {
    if ms == [] then 0 else |ms[0].images| + ImageCount(ms[1..])
  }

  function Decimal(n: nat): string {
    if n < 10 then [['0', '1', '2', '3', '4', '5', '6', '7', '8', '9'][n]] else Decimal(n / 10) + Decimal(n % 10)
  }

  function OriginalID(m: Message, i: nat): string {
    if m.id != "" then m.id
    else if IsSummary(m) then "summary:" + (if CollapseID(m).Some? then CollapseID(m).value else "")
    else "index:" + Decimal(i)
  }

  function OriginalIDs(ms: seq<Message>): seq<string> {
    seq(|ms|, i requires 0 <= i < |ms| => OriginalID(ms[i], i))
  }

  function BuildCollapse(c: Config, ms: seq<Message>, summary: Message): Collapse {
    Collapse("collapse-" + c.digest(OriginalIDs(ms)), 0, |ms| - 1, summary, OriginalIDs(ms), ms)
  }

  function PlainSummary(c: Config, previous: seq<Message>, dropped: seq<Message>): Message {
    var total := |dropped| + SumOf(previous, DroppedTotalKey);
    var images := ImageCount(dropped) + SumOf(previous, DroppedImagesKey);
    Message("", RoleSystem, c.placeholder(total, images, dropped), [], "", "", "", "",
            map[KindKey := WindowSummary, DroppedTotalKey := Int(total)] +
            (if images > 0 then map[DroppedImagesKey := Int(images)] else map[]))
  }

  /** The summary message with its collapse record and the model's compacted text, if any. */
  function Summarize(c: Config, previous: seq<Message>, dropped: seq<Message>, reply: Reply)
    : Result<(Message, seq<Collapse>, Option<string>), CompressError>
  {
    var plain := PlainSummary(c, previous, dropped);
    if !c.deep then Ok((plain, [], None))
    else if reply.SummarizerFails? then Err(SummarizerFailed)
    else
      var compact := if reply.Summarized? && reply.text != "" then Some(reply.text) else None;
      var worded := if compact.Some? then plain.(content := "summary of earlier context:\n" + compact.value) else plain;
      var draft := BuildCollapse(c, previous + dropped, worded);
      var summary := worded.(metadata := worded.metadata[KindKey := CollapseSummary][CollapseIDKey := Text(draft.id)]);
      Ok((summary, [draft.(summary := summary)], compact))
  }

  /** The outcome of a compression that keeps the conversation from index `cut` on. */
  function CompressAt(c: Config, messages: seq<Message>, cut: nat, over: bool, reply: Reply)
    : Result<Output, CompressError>
    requires cut <= |Select(messages, ConversationClass)|
  {
    var system, previous := Select(messages, SystemClass), Select(messages, SummaryClass);
    var conversation := Select(messages, ConversationClass);
    var dropped, recent := conversation[..cut], conversation[cut..];
    if cut > 0 then
      match Summarize(c, previous, dropped, reply)
      case Err(e) => Err(e)
      case Ok((summary, collapses, compact)) =>
        Ok(Output(system + [summary] + recent, cut, summary.content, over, collapses, compact))
    else
      Ok(Output(system + previous + recent, 0, if previous == [] then "" else previous[|previous| - 1].content,
                over, [], None))
  }

  /** A request budget that sets any limit replaces the configured one whole. */
  function EffectiveBudget(request: Budget, configured: Budget): Budget {
    if request.Bounded() then request else configured
  }

  function PricingOf(c: Config, budget: Budget): Pricing {
    Pricing(if c.countTokens.Some? then c.countTokens.value else (m: Message) => 0, budget.maxTokens > 0)
  }

  /**
   Compress. The window start, the mandatory start and OverBudget are reported for specification: the kept
   window is the longest that fits, and OverBudget says exactly that not even the mandatory window fits.
   */
  method Compress(c: Config, messages: seq<Message>, request: Budget, reply: Reply)
    returns (r: Result<Output, CompressError>, ghost mandatory: nat, ghost cut: nat, ghost over: bool)
    ensures var budget := EffectiveBudget(request, c.budget);
            if budget.maxTokens > 0 && c.countTokens.None? then r == Err(TokenCounterRequired)
            else
              var p, ms := PricingOf(c, budget), ProjectTools(c, messages);
              && Chosen(Select(ms, ConversationClass), c.minRecent, budget, p, p.Of(Select(ms, SystemClass)),
                        mandatory, cut, over)
              && r == CompressAt(c, ms, cut, over, reply)
    ensures r.Ok? ==> Carried(r.value.messages) == Carried(messages)
    ensures r.Ok? ==> r.value.overBudget == over && (!over ==> Affordable(c, request, r.value.messages))
  {
    mandatory, cut, over := 0, 0, false;
    var budget := EffectiveBudget(request, c.budget);
    if budget.maxTokens > 0 && c.countTokens.None? {
      r := Err(TokenCounterRequired);
      return;
    }
    var projected := ProjectTools(c, messages);
    var system, _, conversation := Split(projected);
    var p := PricingOf(c, budget);
    var start, exceeds;
    start, exceeds, mandatory := ChooseWindow(conversation, c.minRecent, budget, p, p.Of(system));
    cut, over := start, exceeds;
    r := CompressAt(c, projected, start, exceeds, reply);
    ProjectionConserves(c, messages);
    if r.Ok? {
      CompressConserves(c, projected, start, exceeds, reply);
      OutputAffordable(c, projected, request, mandatory, start, exceeds, reply);
    }
  }

  // ---- the budget ---------------------------------------------------------------------------------

  function CharCount(ms: seq<Message>): nat {
    if ms == [] then 0 else |ms[0].content| + CharCount(ms[1..])
  }

  function TokenCount(count: Message -> int, ms: seq<Message>): int {
    if ms == [] then 0 else count(ms[0]) + TokenCount(count, ms[1..])
  }

  /**
   The system messages and the conversation fit the limits that are set, those of the request if it sets any and
   else the configured ones. What summaries say is not charged.
   */
  predicate Affordable(c: Config, request: Budget, ms: seq<Message>) {
    var limit := if request.maxChars > 0 || request.maxTokens > 0 then request else c.budget;
    var system, conversation := Select(ms, SystemClass), Select(ms, ConversationClass);
    && (limit.maxChars > 0 ==> CharCount(system) + CharCount(conversation) <= limit.maxChars)
    && (limit.maxTokens > 0 && c.countTokens.Some? ==>
          TokenCount(c.countTokens.value, system) + TokenCount(c.countTokens.value, conversation) <= limit.maxTokens)
  }

  lemma {:induction false} CostCounts(p: Pricing, ms: seq<Message>)
    ensures p.Of(ms).chars == CharCount(ms)
    ensures p.tokensLimited ==> p.Of(ms).tokens == TokenCount(p.countTokens, ms)
  {
    if ms != [] {
      CostCounts(p, ms[1..]);
    }
  }

  /** What a compression leaves in view: the system messages, its summaries and the conversation from the cut on. */
  lemma OutputParts(c: Config, messages: seq<Message>, cut: nat, over: bool, reply: Reply)
    requires cut <= |Select(messages, ConversationClass)| && CompressAt(c, messages, cut, over, reply).Ok?
    ensures var out := CompressAt(c, messages, cut, over, reply).value;
            && Select(out.messages, SystemClass) == Select(messages, SystemClass)
            && Select(out.messages, ConversationClass) == Select(messages, ConversationClass)[cut..]
            && (cut == 0 ==> Select(out.messages, SummaryClass) == Select(messages, SummaryClass))
            && (cut > 0 ==> |Select(out.messages, SummaryClass)| == 1) && out.overBudget == over && out.dropped == cut
  {
    var system, previous := Select(messages, SystemClass), Select(messages, SummaryClass);
    var conversation := Select(messages, ConversationClass);
    SelectClass(messages, SystemClass);
    SelectClass(messages, SummaryClass);
    SelectClass(messages, ConversationClass);
    var middle := previous;
    if cut > 0 {
      SummaryFacts(c, previous, conversation[..cut], reply);
      middle := [Summarize(c, previous, conversation[..cut], reply).value.0];
    }
    SelectOutput(system, middle, conversation[cut..], SystemClass);
    SelectOutput(system, middle, conversation[cut..], ConversationClass);
    SelectOutput(system, middle, conversation[cut..], SummaryClass);
  }

  lemma OutputAffordable(c: Config, messages: seq<Message>, request: Budget, mandatory: nat, cut: nat, over: bool,
                         reply: Reply)
    requires var budget := EffectiveBudget(request, c.budget);
             var p, conversation := PricingOf(c, budget), Select(messages, ConversationClass);
             && (budget.maxTokens > 0 ==> c.countTokens.Some?) && cut <= |conversation|
             && Chosen(conversation, c.minRecent, budget, p, p.Of(Select(messages, SystemClass)), mandatory, cut, over)
    requires CompressAt(c, messages, cut, over, reply).Ok?
    ensures var out := CompressAt(c, messages, cut, over, reply).value;
            out.overBudget == over && (!over ==> Affordable(c, request, out.messages))
  {
    OutputParts(c, messages, cut, over, reply);
    var p := PricingOf(c, EffectiveBudget(request, c.budget));
    CostCounts(p, Select(messages, SystemClass));
    CostCounts(p, Select(messages, ConversationClass)[cut..]);
  }

  // ---- conservation -----------------------------------------------------------------------------

  /** Messages still in view plus messages the summaries in view stand for. */
  function Carried(ms: seq<Message>): int {
    |Select(ms, ConversationClass)| + SumOf(Select(ms, SummaryClass), DroppedTotalKey)
  }

  lemma ProjectKeepsClass(c: Config, m: Message)
    ensures ClassOf(ProjectTool(c, m)) == ClassOf(m)
    ensures MetadataInt(ProjectTool(c, m), DroppedTotalKey) == MetadataInt(m, DroppedTotalKey)
  {
  }

  /** Projection changes only tool messages, and of those only the text and two notes about it. */
  lemma ProjectionKeeps(c: Config, ms: seq<Message>, i: nat)
    requires i < |ms|
    ensures |ProjectTools(c, ms)| == |ms|
    ensures var m, m' := ms[i], ProjectTools(c, ms)[i];
            if m.role != RoleTool then m' == m
            else
              && m' == m.(content := c.toolText(m), metadata := m'.metadata)
              && m'.metadata == m.metadata + map[ToolProjectedKey := Flag(true), ToolOriginalKey := Int(|m.content|)]
  {
  }

  lemma {:induction false} ProjectionSelects(c: Config, ms: seq<Message>, k: Class)
    ensures |Select(ProjectTools(c, ms), k)| == |Select(ms, k)|
    ensures SumOf(Select(ProjectTools(c, ms), k), DroppedTotalKey) == SumOf(Select(ms, k), DroppedTotalKey)
  {
    if ms != [] {
      var head, tail := ProjectTool(c, ms[0]), ProjectTools(c, ms[1..]);
      ProjectKeepsClass(c, ms[0]);
      ProjectionSelects(c, ms[1..], k);
      assert ProjectTools(c, ms) == [head] + tail && ms == [ms[0]] + ms[1..];
      SelectConcat([head], tail, k);
      SelectConcat([ms[0]], ms[1..], k);
      SelectFirst(head, Select(tail, k), k);
      SelectFirst(ms[0], Select(ms[1..], k), k);
    }
  }

  lemma SelectFirst(m: Message, rest: seq<Message>, k: Class)
    ensures |Select([m], k) + rest| == |rest| + if ClassOf(m) == k then 1 else 0
    ensures SumOf(Select([m], k) + rest, DroppedTotalKey)
            == SumOf(rest, DroppedTotalKey) + if ClassOf(m) == k then MetadataInt(m, DroppedTotalKey) else 0
  {
    SelectUniform([m], ClassOf(m), k);
    assert ClassOf(m) == k ==> (Select([m], k) + rest)[0] == m && (Select([m], k) + rest)[1..] == rest;
    assert ClassOf(m) != k ==> Select([m], k) + rest == rest;
  }

  /** Shortening tool messages changes neither what is in view nor what summaries carry. */
  lemma ProjectionConserves(c: Config, ms: seq<Message>)
    ensures Carried(ProjectTools(c, ms)) == Carried(ms)
  {
    ProjectionSelects(c, ms, ConversationClass);
    ProjectionSelects(c, ms, SummaryClass);
  }

  /** system, summaries and kept conversation, laid out in this order, are found again by split. */
  lemma SelectOutput(system: seq<Message>, middle: seq<Message>, recent: seq<Message>, k: Class)
    requires forall m :: m in system ==> ClassOf(m) == SystemClass
    requires forall m :: m in middle ==> ClassOf(m) == SummaryClass
    requires forall m :: m in recent ==> ClassOf(m) == ConversationClass
    ensures Select(system + middle + recent, k) ==
            match k case SystemClass => system case SummaryClass => middle case ConversationClass => recent
  {
    SelectConcat(system + middle, recent, k);
    SelectConcat(system, middle, k);
    SelectUniform(system, SystemClass, k);
    SelectUniform(middle, SummaryClass, k);
    SelectUniform(recent, ConversationClass, k);
  }

  /** The summary is recognised as one, carries the running total, and in the deep profile names its collapse. */
  lemma SummaryFacts(c: Config, previous: seq<Message>, dropped: seq<Message>, reply: Reply)
    requires Summarize(c, previous, dropped, reply).Ok?
    ensures var (summary, collapses, _) := Summarize(c, previous, dropped, reply).value;
            && IsSummary(summary) && summary.role == RoleSystem
            && MetadataInt(summary, DroppedTotalKey) == |dropped| + SumOf(previous, DroppedTotalKey)
            && (SumOf(previous, DroppedImagesKey) >= 0 ==>
                  MetadataInt(summary, DroppedImagesKey) == ImageCount(dropped) + SumOf(previous, DroppedImagesKey))
            && (c.deep ==> |collapses| == 1 && collapses[0].summary == summary
                           && collapses[0].id != "" && CollapseID(summary) == Some(collapses[0].id)
                           && collapses[0].originals == previous + dropped)
  {
  }

  /** Every compression preserves the conversation length plus the dropped total its summaries carry. */
  lemma CompressConserves(c: Config, messages: seq<Message>, cut: nat, over: bool, reply: Reply)
    requires cut <= |Select(messages, ConversationClass)| && CompressAt(c, messages, cut, over, reply).Ok?
    ensures Carried(CompressAt(c, messages, cut, over, reply).value.messages) == Carried(messages)
  {
    var system, previous := Select(messages, SystemClass), Select(messages, SummaryClass);
    var conversation := Select(messages, ConversationClass);
    SelectClass(messages, SystemClass);
    SelectClass(messages, SummaryClass);
    SelectClass(messages, ConversationClass);
    var middle := previous;
    if cut > 0 {
      SummaryFacts(c, previous, conversation[..cut], reply);
      var summary := Summarize(c, previous, conversation[..cut], reply).value.0;
      middle := [summary];
      assert SumOf([summary], DroppedTotalKey) == MetadataInt(summary, DroppedTotalKey) + SumOf([], DroppedTotalKey);
    }
    SelectOutput(system, middle, conversation[cut..], ConversationClass);
    SelectOutput(system, middle, conversation[cut..], SummaryClass);
  }

  lemma {:induction false} ImagesConcat(a: seq<Message>, b: seq<Message>)
    ensures ImageCount(a + b) == ImageCount(a) + ImageCount(b)
  {
    if a == [] {
      assert a + b == b;
    } else {
      assert (a + b)[0] == a[0] && (a + b)[1..] == a[1..] + b;
      ImagesConcat(a[1..], b);
    }
  }

  /** Images of the conversation in view plus images the summaries in view stand for. */
  function CarriedImages(ms: seq<Message>): int {
    ImageCount(Select(ms, ConversationClass)) + SumOf(Select(ms, SummaryClass), DroppedImagesKey)
  }

  /** Every compression preserves the number of images in view plus those that its summaries stand for. */
  lemma CompressConservesImages(c: Config, messages: seq<Message>, cut: nat, over: bool, reply: Reply)
    requires cut <= |Select(messages, ConversationClass)| && CompressAt(c, messages, cut, over, reply).Ok?
    requires SumOf(Select(messages, SummaryClass), DroppedImagesKey) >= 0
    ensures CarriedImages(CompressAt(c, messages, cut, over, reply).value.messages) == CarriedImages(messages)
  {
    OutputParts(c, messages, cut, over, reply);
    ImagesSplit(Select(messages, ConversationClass), cut);
    if cut > 0 {
      SelectSummary(c, messages, cut, over, reply);
      SummaryImages(c, Select(messages, SummaryClass), Select(messages, ConversationClass)[..cut], reply);
    }
  }

  lemma ImagesSplit(ms: seq<Message>, cut: nat)
    requires cut <= |ms|
    ensures ImageCount(ms) == ImageCount(ms[..cut]) + ImageCount(ms[cut..])
    ensures cut == 0 ==> ms[cut..] == ms
  {
    assert ms == ms[..cut] + ms[cut..];
    ImagesConcat(ms[..cut], ms[cut..]);
  }

  lemma SummaryImages(c: Config, previous: seq<Message>, dropped: seq<Message>, reply: Reply)
    requires Summarize(c, previous, dropped, reply).Ok? && SumOf(previous, DroppedImagesKey) >= 0
    ensures SumOf([Summarize(c, previous, dropped, reply).value.0], DroppedImagesKey) ==
            ImageCount(dropped) + SumOf(previous, DroppedImagesKey)
  {
    SummaryFacts(c, previous, dropped, reply);
    SumOfOne(Summarize(c, previous, dropped, reply).value.0, DroppedImagesKey);
  }

  /** A count survives being stored as JSON, where it comes back as a float. */
  lemma CountSurvivesJSON(m: Message, key: Key, n: int)
    requires key in m.metadata && m.metadata[key] == Float(n as real)
    ensures MetadataInt(m, key) == MetadataInt(m.(metadata := m.metadata[key := Int(n)]), key) == n
  {
    assert (-(n as real)) == (-n) as real;
  }

  lemma SumOfOne(m: Message, key: Key)
    ensures SumOf([m], key) == MetadataInt(m, key)
  {
    assert SumOf([m], key) == MetadataInt(m, key) + SumOf([], key);
  }

  lemma SelectSummary(c: Config, messages: seq<Message>, cut: nat, over: bool, reply: Reply)
    requires 0 < cut <= |Select(messages, ConversationClass)| && CompressAt(c, messages, cut, over, reply).Ok?
    ensures var previous, conversation := Select(messages, SummaryClass), Select(messages, ConversationClass);
            && Summarize(c, previous, conversation[..cut], reply).Ok?
            && Select(CompressAt(c, messages, cut, over, reply).value.messages, SummaryClass) ==
               [Summarize(c, previous, conversation[..cut], reply).value.0]
  {
    var system, previous := Select(messages, SystemClass), Select(messages, SummaryClass);
    var conversation := Select(messages, ConversationClass);
    SelectClass(messages, SystemClass);
    SelectClass(messages, ConversationClass);
    SummaryFacts(c, previous, conversation[..cut], reply);
    SelectOutput(system, [Summarize(c, previous, conversation[..cut], reply).value.0], conversation[cut..],
                 SummaryClass);
  }
}
