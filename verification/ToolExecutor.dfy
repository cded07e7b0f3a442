/**
 The tool executor: a batch of calls runs in order, consecutive parallel tools as one group
 whose members each write to their own copy of the run's metadata. A tool is an uninterpreted
 function of its definition, its call and its environment.
 */
module ToolExecutor {
  import opened Wrappers

  /** The once-only stages of a run, each marked done by a reserved metadata key. */
  datatype Flag =
    | GuardPassed | MemoryLoaded | InputAdded | SystemPromptLoaded | SkillsLoaded | ToolsProvided | FormatAdded

  datatype Key = Reserved(flag: Flag) | Named(name: string)

  /** A metadata value: true, or anything else. */
  datatype Value = True | Data(text: string)

  /** A Go map that may be nil; a nil map can be read but not written. */
  datatype Metadata = Nil | Made(entries: map<Key, Value>)

  datatype Mode = Auto | Parallel | Sequential | Exclusive

  datatype Permission = Read | Write | Special(name: string)

  datatype Tool = Tool(name: string, permission: Permission, mode: Mode, schema: string)

  datatype Call = Call(id: string, name: string, input: string)

  datatype ToolResult = ToolResult(forLLM: string, silent: bool, isError: bool)

  /** What one tool run returns; a tool may return no result at all. */
  type ToolReturn = Result<Option<ToolResult>, string>

  datatype Execution = Execution(index: nat, call: Call, result: Option<ToolResult>)

  datatype Env = Env(userID: string, sessionID: string, metadata: Metadata)

  /** What a tool returned and the metadata map as the tool left it. */
  datatype Ran = Ran(value: ToolReturn, entries: map<Key, Value>)

  type Behaviour = (Tool, Call, Env) -> Ran

  datatype ToolError = UnknownTool(name: string) | RunFailed(message: string)

  function Get(m: map<Key, Value>, k: Key): Option<Value> {
    if k in m then Some(m[k]) else None
  }

  predicate RunsParallel(tool: Tool) {
    tool.mode == Parallel || (tool.mode == Auto && tool.permission == Read)
  }

  // ---- Merging the metadata written by a parallel group ----

  predicate Changed(original: map<Key, Value>, copied: map<Key, Value>, k: Key) {
    Get(original, k) != Get(copied, k)
  }

  /** One copy's changes relative to `original`, applied to `shared`. */
  function ApplyWrites(shared: map<Key, Value>, original: map<Key, Value>, copied: map<Key, Value>): map<Key, Value> {
    map k | k in shared.Keys + copied.Keys
            && (if Changed(original, copied, k) then k in copied else k in shared)
      :: if Changed(original, copied, k) then copied[k] else shared[k]
  }

  function Merge(shared: map<Key, Value>, original: map<Key, Value>, copies: seq<map<Key, Value>>): map<Key, Value>
    decreases copies
  {
    if copies == [] then shared
    else Merge(ApplyWrites(shared, original, copies[0]), original, copies[1..])
  }

  lemma ApplyWritesAt(shared: map<Key, Value>, original: map<Key, Value>, copied: map<Key, Value>, k: Key)
    ensures Get(ApplyWrites(shared, original, copied), k)
            == if Changed(original, copied, k) then Get(copied, k) else Get(shared, k)
  {
  }

  predicate Untouched(original: map<Key, Value>, copies: seq<map<Key, Value>>, k: Key) {
    forall i :: 0 <= i < |copies| ==> !Changed(original, copies[i], k)
  }

  /** A key that no call of the group changed keeps its value. */
  lemma {:induction false} UnchangedKept(shared: map<Key, Value>, original: map<Key, Value>,
                                         copies: seq<map<Key, Value>>, k: Key)
    requires Untouched(original, copies, k)
    ensures Get(Merge(shared, original, copies), k) == Get(shared, k)
    decreases copies
  {
    if copies != [] {
      ApplyWritesAt(shared, original, copies[0], k);
      UnchangedKept(ApplyWrites(shared, original, copies[0]), original, copies[1..], k);
    }
  }

  /** On every key the last call that changed it decides, deletions included. */
  lemma {:induction false} LastChangerWins(shared: map<Key, Value>, original: map<Key, Value>,
                                           copies: seq<map<Key, Value>>, k: Key, i: nat)
    requires i < |copies| && Changed(original, copies[i], k) && Untouched(original, copies[i + 1..], k)
    ensures Get(Merge(shared, original, copies), k) == Get(copies[i], k)
    decreases copies
  {
    var next := ApplyWrites(shared, original, copies[0]);
    if i == 0 {
      ApplyWritesAt(shared, original, copies[0], k);
      UnchangedKept(next, original, copies[1..], k);
    } else {
      assert copies[1..][i..] == copies[i + 1..];
      LastChangerWins(next, original, copies[1..], k, i - 1);
    }
  }

  method DropDeleted(shared: map<Key, Value>, original: map<Key, Value>, copied: map<Key, Value>)
    returns (kept: map<Key, Value>)
    ensures forall k :: Get(kept, k) == if k in original && k !in copied then None else Get(shared, k)
  {
    kept := shared;
    var keys := original.Keys;
    while keys != {}
      invariant keys <= original.Keys
      invariant forall k :: Get(kept, k) == if k in original.Keys - keys && k !in copied then None else Get(shared, k)
      decreases |keys|
    {
      var k :| k in keys;
      if k !in copied {
        kept := kept - {k};
      }
      keys := keys - {k};
    }
  }

  method WriteChanged(shared: map<Key, Value>, original: map<Key, Value>, copied: map<Key, Value>)
    returns (written: map<Key, Value>)
    ensures forall k :: Get(written, k) ==
                        if k in copied && Changed(original, copied, k) then Get(copied, k) else Get(shared, k)
  {
    written := shared;
    var keys := copied.Keys;
    while keys != {}
      invariant keys <= copied.Keys
      invariant forall k :: Get(written, k) ==
                            if k in copied.Keys - keys && Changed(original, copied, k) then Get(copied, k)
                            else Get(shared, k)
      decreases |keys|
    {
      var k :| k in keys;
      if k !in original || original[k] != copied[k] {
        written := written[k := copied[k]];
      }
      keys := keys - {k};
    }
  }

  /** mergeMetadataWrites; whatever order the maps are walked in, the merged map is the same. */
  method MergeMetadataWrites(shared: map<Key, Value>, original: map<Key, Value>, copies: seq<map<Key, Value>>)
    returns (merged: map<Key, Value>)
    ensures merged == Merge(shared, original, copies)
  {
    merged := shared;
    for c := 0 to |copies|
      invariant Merge(shared, original, copies) == Merge(merged, original, copies[c..])
    {
      var kept := DropDeleted(merged, original, copies[c]);
      var written := WriteChanged(kept, original, copies[c]);
      forall k ensures Get(written, k) == Get(ApplyWrites(merged, original, copies[c]), k) {
        ApplyWritesAt(merged, original, copies[c], k);
      }
      SameEntries(written, ApplyWrites(merged, original, copies[c]));
      assert copies[c..][1..] == copies[c + 1..];
      merged := written;
    }
  }

  lemma SameEntries(a: map<Key, Value>, b: map<Key, Value>)
    requires forall k :: Get(a, k) == Get(b, k)
    ensures a == b
  {
    forall k
      ensures k in a <==> k in b
      ensures k in a && k in b ==> a[k] == b[k]
    {
      assert Get(a, k) == Get(b, k);
    }
  }

  // ---- A batch of calls ----

  /** The end of the parallel group starting at `start`; `start` itself when that tool is not parallel. */
  function GroupEnd(tools: seq<Tool>, start: nat): (end: nat)
    requires start <= |tools|
    ensures start <= end <= |tools|
    ensures forall i :: start <= i < end ==> RunsParallel(tools[i])
    ensures end < |tools| ==> !RunsParallel(tools[end])
    decreases |tools| - start
  {
    if start < |tools| && RunsParallel(tools[start]) then GroupEnd(tools, start + 1) else start
  }

  function After(metadata: Metadata, ran: Ran): Metadata {
    if metadata.Nil? then Nil else Made(ran.entries)
  }

  function RunGroup(run: Behaviour, tools: seq<Tool>, calls: seq<Call>, start: nat, end: nat, env: Env)
    : (rans: seq<Ran>)
    requires start <= end <= |tools| == |calls|
    ensures |rans| == end - start
    ensures forall i :: 0 <= i < |rans| ==> rans[i] == run(tools[start + i], calls[start + i], env)
  {
    seq(end - start, i requires 0 <= i < end - start => run(tools[start + i], calls[start + i], env))
  }

  function Values(rans: seq<Ran>): (values: seq<ToolReturn>)
    ensures |values| == |rans|
    ensures forall i :: 0 <= i < |rans| ==> values[i] == rans[i].value
  {
    seq(|rans|, i requires 0 <= i < |rans| => rans[i].value)
  }

  function Copies(rans: seq<Ran>): (copies: seq<map<Key, Value>>)
    ensures |copies| == |rans|
    ensures forall i :: 0 <= i < |rans| ==> copies[i] == rans[i].entries
  {
    seq(|rans|, i requires 0 <= i < |rans| => rans[i].entries)
  }

  function AfterGroup(metadata: Metadata, rans: seq<Ran>): Metadata {
    if metadata.Nil? then Nil else Made(Merge(metadata.entries, metadata.entries, Copies(rans)))
  }

  datatype Batch = Batch(values: seq<ToolReturn>, metadata: Metadata)

  /** The calls from `start` on: each parallel group sees the metadata all earlier calls left. */
  function RunBatch(run: Behaviour, tools: seq<Tool>, calls: seq<Call>, start: nat, env: Env): (b: Batch)
    requires start <= |tools| == |calls|
    ensures |b.values| == |calls| - start
    decreases |calls| - start
  {
    if start == |calls| then Batch([], env.metadata)
    else
      var end := GroupEnd(tools, start);
      if start < end then
        var rans := RunGroup(run, tools, calls, start, end, env);
        var rest := RunBatch(run, tools, calls, end, env.(metadata := AfterGroup(env.metadata, rans)));
        Batch(Values(rans) + rest.values, rest.metadata)
      else
        var ran := run(tools[start], calls[start], env);
        var rest := RunBatch(run, tools, calls, start + 1, env.(metadata := After(env.metadata, ran)));
        Batch([ran.value] + rest.values, rest.metadata)
  }

  function Missing(registry: map<string, Tool>, calls: seq<Call>): (name: Option<string>)
    ensures name.None? <==> forall i :: 0 <= i < |calls| ==> calls[i].name in registry
  {
    if calls == [] then None
    else if calls[0].name !in registry then Some(calls[0].name)
    else
      assert forall i :: 0 <= i < |calls[1..]| ==> calls[1..][i] == calls[i + 1];
      Missing(registry, calls[1..])
  }

  function Resolve(registry: map<string, Tool>, calls: seq<Call>): (tools: seq<Tool>)
    requires Missing(registry, calls).None?
    ensures |tools| == |calls| && forall i :: 0 <= i < |calls| ==> tools[i] == registry[calls[i].name]
  {
    seq(|calls|, i requires 0 <= i < |calls| => registry[calls[i].name])
  }

  function FirstError(values: seq<ToolReturn>): (e: Option<string>)
    ensures e.None? <==> forall i :: 0 <= i < |values| ==> values[i].Ok?
  {
    if values == [] then None
    else if values[0].Err? then Some(values[0].error)
    else
      assert forall i :: 0 <= i < |values[1..]| ==> values[1..][i] == values[i + 1];
      FirstError(values[1..])
  }

  function Executions(calls: seq<Call>, values: seq<ToolReturn>): (xs: seq<Execution>)
    requires |values| == |calls| && FirstError(values).None?
    ensures |xs| == |calls|
    ensures forall i :: 0 <= i < |calls| ==> xs[i] == Execution(i, calls[i], values[i].value)
  {
    seq(|calls|, i requires 0 <= i < |calls| => Execution(i, calls[i], values[i].value))
  }

  datatype Executed = Executed(results: Result<seq<Execution>, ToolError>, metadata: Metadata)

  /** What Execute returns and leaves in the metadata; an unknown tool stops it before any tool runs. */
  function Execute(run: Behaviour, registry: map<string, Tool>, calls: seq<Call>, env: Env): Executed {
    var missing := Missing(registry, calls);
    if missing.Some? then Executed(Err(UnknownTool(missing.value)), env.metadata)
    else
      var b := RunBatch(run, Resolve(registry, calls), calls, 0, env);
      var e := FirstError(b.values);
      if e.Some? then Executed(Err(RunFailed(e.value)), b.metadata)
      else Executed(Ok(Executions(calls, b.values)), b.metadata)
  }

  /** A successful batch holds exactly one result per call, in call order. */
  lemma OneResultPerCall(run: Behaviour, registry: map<string, Tool>, calls: seq<Call>, env: Env)
    ensures var x := Execute(run, registry, calls, env);
            x.results.Ok? ==> && |x.results.value| == |calls|
                              && forall i :: 0 <= i < |calls| ==>
                                   x.results.value[i].call == calls[i] && x.results.value[i].index == i
  {
  }

  /** A tool that runs together with its parallel neighbours: declared so, or only reading and not declared. */
  predicate Together(tool: Tool) {
    match tool.mode
    case Parallel => true
    case Auto => tool.permission == Read
    case Sequential => false
    case Exclusive => false
  }

  /** Call k on the metadata it sees. */
  function RunOn(run: Behaviour, tools: seq<Tool>, calls: seq<Call>, env: Env, views: seq<Metadata>, k: nat): Ran
    requires k < |tools| == |calls| < |views|
  {
    run(tools[k], calls[k], env.(metadata := views[k]))
  }

  /** On every key the last of the copies that changed it decides, and what none changed stays. */
  ghost predicate MergedBy(before: Metadata, copies: seq<map<Key, Value>>, after: Metadata) {
    if before.Nil? then after == Nil
    else
      && after.Made?
      && (forall key, i :: 0 <= i < |copies| && Changed(before.entries, copies[i], key)
                           && Untouched(before.entries, copies[i + 1..], key) ==>
                             Get(after.entries, key) == Get(copies[i], key))
      && (forall key :: Untouched(before.entries, copies, key) ==> Get(after.entries, key) == Get(before.entries, key))
  }

  lemma AfterGroupMerges(metadata: Metadata, rans: seq<Ran>)
    ensures MergedBy(metadata, Copies(rans), AfterGroup(metadata, rans))
  {
    if metadata.Made? {
      var m, copies := metadata.entries, Copies(rans);
      forall key, i | 0 <= i < |copies| && Changed(m, copies[i], key) && Untouched(m, copies[i + 1..], key)
        ensures Get(Merge(m, m, copies), key) == Get(copies[i], key)
      {
        LastChangerWins(m, m, copies, key, i);
      }
      forall key | Untouched(m, copies, key) ensures Get(Merge(m, m, copies), key) == Get(m, key) {
        UnchangedKept(m, m, copies, key);
      }
    }
  }

  /** The metadata maps that the calls from g up to k leave. */
  function Left(run: Behaviour, tools: seq<Tool>, calls: seq<Call>, env: Env, views: seq<Metadata>, g: nat, k: nat)
    : (copies: seq<map<Key, Value>>)
    requires g <= k <= |tools| == |calls| < |views|
    ensures |copies| == k - g
    ensures forall i :: 0 <= i < k - g ==> copies[i] == RunOn(run, tools, calls, env, views, g + i).entries
  {
    seq(k - g, i requires 0 <= i < k - g => RunOn(run, tools, calls, env, views, g + i).entries)
  }

  /** The calls from g up to k are a whole parallel group of the calls from `start` on. */
  predicate WholeGroup(tools: seq<Tool>, start: nat, g: nat, k: nat) {
    && start <= g < k <= |tools| && (forall i :: g <= i < k ==> Together(tools[i]))
    && (g == start || !Together(tools[g - 1])) && (k == |tools| || !Together(tools[k]))
  }

  /**
   What is seen after call k: within a group the same; after a group its merged writes; after any other call what
   that call left.
   */
  ghost predicate HandsOn(run: Behaviour, tools: seq<Tool>, calls: seq<Call>, start: nat, env: Env,
                          views: seq<Metadata>, k: nat)
    requires k < |tools| == |calls| < |views|
  {
    if !Together(tools[k]) then
      views[k + 1] == if views[k].Nil? then Nil else Made(RunOn(run, tools, calls, env, views, k).entries)
    else if k + 1 < |tools| && Together(tools[k + 1]) then views[k + 1] == views[k]
    else
      exists g: nat :: WholeGroup(tools, start, g, k + 1) &&
                  MergedBy(views[g], Left(run, tools, calls, env, views, g, k + 1), views[k + 1])
  }

  /** The calls from `start` on see these metadata, and their values and the last metadata are what they lead to. */
  ghost predicate Sees(run: Behaviour, tools: seq<Tool>, calls: seq<Call>, start: nat, env: Env, views: seq<Metadata>) {
    && start <= |tools| == |calls| && |views| == |calls| + 1 && views[start] == env.metadata
    && views[|calls|] == RunBatch(run, tools, calls, start, env).metadata
    && (forall k :: start <= k < |calls| ==>
          RunBatch(run, tools, calls, start, env).values[k - start] == RunOn(run, tools, calls, env, views, k).value)
    && (forall k :: start <= k < |calls| ==> HandsOn(run, tools, calls, start, env, views, k))
  }

  /**
   Each call runs once, on the metadata it sees. The calls of a parallel group see the same metadata, so none sees
   what another wrote, and leave their merged writes; any other call hands on exactly what it left.
   */
  lemma {:induction false} BatchViews(run: Behaviour, tools: seq<Tool>, calls: seq<Call>, start: nat, env: Env)
    returns (views: seq<Metadata>)
    requires start <= |tools| == |calls|
    ensures Sees(run, tools, calls, start, env, views)
    decreases |calls| - start
  {
    if start == |calls| {
      views := seq(|calls| + 1, k => env.metadata);
    } else {
      var end := GroupEnd(tools, start);
      if start < end {
        var rans := RunGroup(run, tools, calls, start, end, env);
        var rest := BatchViews(run, tools, calls, end, env.(metadata := AfterGroup(env.metadata, rans)));
        views := Prefixed(env.metadata, end, rest);
        GroupViews(run, tools, calls, start, end, env, rest);
      } else {
        var ran := run(tools[start], calls[start], env);
        var rest := BatchViews(run, tools, calls, start + 1, env.(metadata := After(env.metadata, ran)));
        views := Prefixed(env.metadata, start + 1, rest);
        OneViews(run, tools, calls, start, env, rest);
      }
    }
  }

  lemma GroupViews(run: Behaviour, tools: seq<Tool>, calls: seq<Call>, start: nat, end: nat, env: Env,
                   rest: seq<Metadata>)
    requires start < |tools| == |calls| && start < end == GroupEnd(tools, start)
    requires var rans := RunGroup(run, tools, calls, start, end, env);
             Sees(run, tools, calls, end, env.(metadata := AfterGroup(env.metadata, rans)), rest)
    ensures Sees(run, tools, calls, start, env, Prefixed(env.metadata, end, rest))
  {
    var rans, views := RunGroup(run, tools, calls, start, end, env), Prefixed(env.metadata, end, rest);
    var next := env.(metadata := AfterGroup(env.metadata, rans));
    RunBatchGroup(run, tools, calls, start, end, env);
    SeesBefore(run, tools, calls, start, end, env, next, views, rest, Values(rans));
    GroupHandsOn(run, tools, calls, start, end, env, views);
  }

  lemma RunBatchOne(run: Behaviour, tools: seq<Tool>, calls: seq<Call>, start: nat, env: Env)
    requires start < |tools| == |calls| && start == GroupEnd(tools, start)
    ensures var ran := run(tools[start], calls[start], env);
            var rest := RunBatch(run, tools, calls, start + 1, env.(metadata := After(env.metadata, ran)));
            RunBatch(run, tools, calls, start, env) == Batch([ran.value] + rest.values, rest.metadata)
  {
  }

  lemma OneViews(run: Behaviour, tools: seq<Tool>, calls: seq<Call>, start: nat, env: Env, rest: seq<Metadata>)
    requires start < |tools| == |calls| && start == GroupEnd(tools, start)
    requires var ran := run(tools[start], calls[start], env);
             Sees(run, tools, calls, start + 1, env.(metadata := After(env.metadata, ran)), rest)
    ensures Sees(run, tools, calls, start, env, Prefixed(env.metadata, start + 1, rest))
  {
    var ran, views := run(tools[start], calls[start], env), Prefixed(env.metadata, start + 1, rest);
    var next := env.(metadata := After(env.metadata, ran));
    RunBatchOne(run, tools, calls, start, env);
    AloneTool(tools, start);
    OneHandsOn(run, tools, calls, start, env, views);
    SeesBefore(run, tools, calls, start, start + 1, env, next, views, rest, [ran.value]);
  }

  lemma AloneTool(tools: seq<Tool>, start: nat)
    requires start < |tools| && start == GroupEnd(tools, start)
    ensures !Together(tools[start])
  {
  }

  lemma OneHandsOn(run: Behaviour, tools: seq<Tool>, calls: seq<Call>, start: nat, env: Env, views: seq<Metadata>)
    requires start < |tools| == |calls| < |views| && !Together(tools[start]) && views[start] == env.metadata
    requires views[start + 1] == After(env.metadata, run(tools[start], calls[start], env))
    ensures HandsOn(run, tools, calls, start, env, views, start)
  {
    assert env.(metadata := env.metadata) == env;
  }

  function Prefixed(metadata: Metadata, end: nat, rest: seq<Metadata>): (views: seq<Metadata>)
    ensures |views| == |rest| && forall k :: 0 <= k < |rest| ==> views[k] == if k < end then metadata else rest[k]
  {
    seq(|rest|, k requires 0 <= k < |rest| => if k < end then metadata else rest[k])
  }

  lemma LaterSame(run: Behaviour, tools: seq<Tool>, calls: seq<Call>, env: Env, next: Env, views: seq<Metadata>,
                  rest: seq<Metadata>, k: nat)
    requires k < |tools| == |calls| < |views| == |rest| && views[k] == rest[k]
    requires next == env.(metadata := next.metadata)
    ensures RunOn(run, tools, calls, env, views, k) == RunOn(run, tools, calls, next, rest, k)
  {
    assert env.(metadata := views[k]) == next.(metadata := rest[k]);
  }

  /** The views of later calls stay what they were when earlier calls are put in front of them. */
  lemma LaterHandsOn(run: Behaviour, tools: seq<Tool>, calls: seq<Call>, start: nat, end: nat, env: Env, next: Env,
                     views: seq<Metadata>, rest: seq<Metadata>, k: nat)
    requires start < end <= k < |tools| == |calls| < |views| == |rest| && next == env.(metadata := next.metadata)
    requires forall i :: end <= i < |views| ==> views[i] == rest[i]
    requires HandsOn(run, tools, calls, end, next, rest, k)
    requires !Together(tools[end - 1]) || !Together(tools[end])
    ensures HandsOn(run, tools, calls, start, env, views, k)
  {
    LaterSame(run, tools, calls, env, next, views, rest, k);
    if Together(tools[k]) && !(k + 1 < |tools| && Together(tools[k + 1])) {
      var g: nat :| WholeGroup(tools, end, g, k + 1) &&
               MergedBy(rest[g], Left(run, tools, calls, next, rest, g, k + 1), rest[k + 1]);
      forall i | g <= i < k + 1
        ensures RunOn(run, tools, calls, env, views, i) == RunOn(run, tools, calls, next, rest, i)
      {
        LaterSame(run, tools, calls, env, next, views, rest, i);
      }
      assert Left(run, tools, calls, env, views, g, k + 1) == Left(run, tools, calls, next, rest, g, k + 1);
      assert WholeGroup(tools, start, g, k + 1);
    }
  }

  /** A group at the front hands its merged writes on. */
  lemma GroupHandsOn(run: Behaviour, tools: seq<Tool>, calls: seq<Call>, start: nat, end: nat, env: Env,
                     views: seq<Metadata>)
    requires start < |tools| == |calls| < |views| && start < end == GroupEnd(tools, start)
    requires forall k :: start <= k < end ==> views[k] == env.metadata
    requires views[end] == AfterGroup(env.metadata, RunGroup(run, tools, calls, start, end, env))
    ensures forall k :: start <= k < end ==> HandsOn(run, tools, calls, start, env, views, k)
  {
    var rans := RunGroup(run, tools, calls, start, end, env);
    assert env.(metadata := env.metadata) == env;
    forall i | 0 <= i < end - start ensures RunOn(run, tools, calls, env, views, start + i) == rans[i] {
      assert views[start + i] == env.metadata;
    }
    assert Left(run, tools, calls, env, views, start, end) == Copies(rans);
    AfterGroupMerges(env.metadata, rans);
    assert WholeGroup(tools, start, start, end);
    forall k | start <= k < end ensures HandsOn(run, tools, calls, start, env, views, k) {
      assert Together(tools[k]) && views[start] == env.metadata;
      assert k + 1 < end ==> Together(tools[k + 1]) && views[k + 1] == views[k];
    }
  }

  lemma ValueBefore(run: Behaviour, tools: seq<Tool>, calls: seq<Call>, start: nat, end: nat, env: Env, next: Env,
                    views: seq<Metadata>, rest: seq<Metadata>, values: seq<ToolReturn>, later: seq<ToolReturn>, k: nat)
    requires start < end <= |tools| == |calls| < |rest| && start <= k < |calls|
    requires next == env.(metadata := next.metadata) && |values| == end - start && |later| == |calls| - end
    requires k >= end ==> later[k - end] == RunOn(run, tools, calls, next, rest, k).value
    requires k < end ==> values[k - start] == run(tools[k], calls[k], env).value
    requires views == Prefixed(env.metadata, end, rest)
    ensures (values + later)[k - start] == RunOn(run, tools, calls, env, views, k).value
  {
    if k >= end {
      LaterSame(run, tools, calls, env, next, views, rest, k);
    } else {
      assert env.(metadata := env.metadata) == env;
    }
  }

  /** The calls of one group, or one call alone, in front of calls whose views are known. */
  lemma SeesBefore(run: Behaviour, tools: seq<Tool>, calls: seq<Call>, start: nat, end: nat, env: Env, next: Env,
                   views: seq<Metadata>, rest: seq<Metadata>, values: seq<ToolReturn>)
    requires start < end <= |tools| == |calls| && next == env.(metadata := next.metadata)
    requires |values| == end - start && Sees(run, tools, calls, end, next, rest)
    requires var b := RunBatch(run, tools, calls, end, next);
             RunBatch(run, tools, calls, start, env) == Batch(values + b.values, b.metadata)
    requires views == Prefixed(env.metadata, end, rest)
    requires forall k :: start <= k < end ==> values[k - start] == run(tools[k], calls[k], env).value
    requires end < |tools| ==> !Together(tools[end - 1]) || !Together(tools[end])
    ensures (forall k :: start <= k < end ==> HandsOn(run, tools, calls, start, env, views, k)) ==>
              Sees(run, tools, calls, start, env, views)
  {
    var later := RunBatch(run, tools, calls, end, next).values;
    forall k | start <= k < |calls|
      ensures RunBatch(run, tools, calls, start, env).values[k - start] == RunOn(run, tools, calls, env, views, k).value
    {
      ValueBefore(run, tools, calls, start, end, env, next, views, rest, values, later, k);
    }
    forall k | end <= k < |calls|
      ensures HandsOn(run, tools, calls, start, env, views, k)
    {
      assert HandsOn(run, tools, calls, end, next, rest, k);
      LaterHandsOn(run, tools, calls, start, end, env, next, views, rest, k);
    }
  }

  predicate FirstUnknown(registry: map<string, Tool>, calls: seq<Call>, k: nat) {
    k < |calls| && calls[k].name !in registry && forall j :: 0 <= j < k ==> calls[j].name in registry
  }

  lemma {:induction false} FirstMissing(registry: map<string, Tool>, calls: seq<Call>, k: nat)
    requires FirstUnknown(registry, calls, k)
    ensures Missing(registry, calls) == Some(calls[k].name)
  {
    if k > 0 {
      FirstMissing(registry, calls[1..], k - 1);
    }
  }

  lemma {:induction false} FirstFailure(values: seq<ToolReturn>, k: nat)
    requires k < |values| && values[k].Err? && forall j :: 0 <= j < k ==> values[j].Ok?
    ensures FirstError(values) == Some(values[k].error)
  {
    if k > 0 {
      FirstFailure(values[1..], k - 1);
    }
  }

  /** The outcome of a batch whose tools are known, call by call. */
  ghost predicate Yields(run: Behaviour, tools: seq<Tool>, calls: seq<Call>, env: Env, views: seq<Metadata>,
                         results: Result<seq<Execution>, ToolError>)
    requires |tools| == |calls| < |views|
  {
    match results
    case Ok(xs) =>
      |xs| == |calls| &&
      forall k :: 0 <= k < |calls| ==>
        && RunOn(run, tools, calls, env, views, k).value.Ok?
        && xs[k] == Execution(k, calls[k], RunOn(run, tools, calls, env, views, k).value.value)
    case Err(UnknownTool(_)) => false
    case Err(RunFailed(message)) =>
      exists k :: 0 <= k < |calls| && RunOn(run, tools, calls, env, views, k).value == Err(message)
                  && forall j :: 0 <= j < k ==> RunOn(run, tools, calls, env, views, j).value.Ok?
  }

  lemma {:induction false} FailureExists(values: seq<ToolReturn>) returns (k: nat)
    requires FirstError(values).Some?
    ensures k < |values| && values[k].Err? && forall j :: 0 <= j < k ==> values[j].Ok?
  {
    k := 0;
    if values[0].Ok? {
      var j := FailureExists(values[1..]);
      k := j + 1;
    }
  }

  /**
   A batch with an unknown tool runs nothing and names the first one. Otherwise every call runs on the metadata it
   sees; the batch has all results in call order, or fails with the error of the first call that failed.
   */
  lemma ExecuteMeans(run: Behaviour, registry: map<string, Tool>, calls: seq<Call>, env: Env)
    returns (views: seq<Metadata>)
    ensures forall k: nat :: FirstUnknown(registry, calls, k) ==>
              Execute(run, registry, calls, env) == Executed(Err(UnknownTool(calls[k].name)), env.metadata)
    ensures (forall k :: 0 <= k < |calls| ==> calls[k].name in registry) ==>
              var tools := Resolve(registry, calls);
              && Sees(run, tools, calls, 0, env, views)
              && Execute(run, registry, calls, env).metadata == views[|calls|]
              && Yields(run, tools, calls, env, views, Execute(run, registry, calls, env).results)
  {
    views := [];
    forall k: nat | FirstUnknown(registry, calls, k)
      ensures Execute(run, registry, calls, env) == Executed(Err(UnknownTool(calls[k].name)), env.metadata)
    {
      FirstMissing(registry, calls, k);
    }
    if Missing(registry, calls).None? {
      var tools := Resolve(registry, calls);
      views := BatchViews(run, tools, calls, 0, env);
      var values := RunBatch(run, tools, calls, 0, env).values;
      assert forall k :: 0 <= k < |calls| ==> values[k - 0] == RunOn(run, tools, calls, env, views, k).value;
      if FirstError(values).Some? {
        var k := FailureExists(values);
        FirstFailure(values, k);
        assert RunOn(run, tools, calls, env, views, k).value == Err(values[k].error);
      }
    }
  }

  /** Executor.Execute. */
  method ExecuteCalls(run: Behaviour, registry: map<string, Tool>, calls: seq<Call>, env: Env)
    returns (r: Result<seq<Execution>, ToolError>, metadata: Metadata)
    ensures Executed(r, metadata) == Execute(run, registry, calls, env)
  {
    var resolved := [];
    for i := 0 to |calls|
      invariant |resolved| == i
      invariant forall k :: 0 <= k < i ==> calls[k].name in registry && resolved[k] == registry[calls[k].name]
      invariant Missing(registry, calls) == Missing(registry, calls[i..])
    {
      assert calls[i..][0] == calls[i] && calls[i..][1..] == calls[i + 1..];
      if calls[i].name !in registry {
        return Err(UnknownTool(calls[i].name)), env.metadata;
      }
      resolved := resolved + [registry[calls[i].name]];
    }
    assert resolved == Resolve(registry, calls);
    var results := new Execution[|calls|](_ => Execution(0, Call("", "", ""), None));
    var errs := new Option<string>[|calls|](_ => None);
    metadata := RunCalls(run, resolved, calls, env, results, errs);
    ghost var all := RunBatch(run, resolved, calls, 0, env);
    for i := 0 to |calls|
      invariant FirstError(all.values) == FirstError(all.values[i..])
      invariant forall k :: 0 <= k < i ==> all.values[k].Ok?
    {
      assert Slot(results, errs, i, calls[i], all.values[i]);
      assert all.values[i..][0] == all.values[i] && all.values[i..][1..] == all.values[i + 1..];
      if errs[i].Some? {
        return Err(RunFailed(errs[i].value)), metadata;
      }
    }
    assert forall k :: 0 <= k < |calls| ==> Slot(results, errs, k, calls[k], all.values[k]);
    assert results[..] == Executions(calls, all.values);
    r := Ok(results[..]);
  }

  /** The loop over groups, filling one result or error per call. */
  method RunCalls(run: Behaviour, resolved: seq<Tool>, calls: seq<Call>, env: Env, results: array<Execution>,
                  errs: array<Option<string>>)
    returns (metadata: Metadata)
    requires |resolved| == |calls| == results.Length == errs.Length
    requires forall k :: 0 <= k < |calls| ==> errs[k] == None
    modifies results, errs
    ensures metadata == RunBatch(run, resolved, calls, 0, env).metadata
    ensures Filled(results, errs, calls, RunBatch(run, resolved, calls, 0, env).values, |calls|)
  {
    ghost var all := RunBatch(run, resolved, calls, 0, env);
    metadata := env.metadata;
    var start := 0;
    while start < |calls|
      invariant 0 <= start <= |calls|
      invariant Remaining(all, RunBatch(run, resolved, calls, start, env.(metadata := metadata)), start)
      invariant Filled(results, errs, calls, all.values, start)
      invariant forall k :: start <= k < |calls| ==> errs[k] == None
    {
      var end := GroupEnd(resolved, start);
      if start < end {
        var rans := RunGroup(run, resolved, calls, start, end, env.(metadata := metadata));
        RunBatchGroup(run, resolved, calls, start, end, env.(metadata := metadata));
        ghost var next := env.(metadata := AfterGroup(metadata, rans));
        RemainingSplit(all, start, end, Values(rans), RunBatch(run, resolved, calls, end, next));
        FillGroup(calls, start, rans, results, errs);
        if metadata.Made? {
          var merged := MergeMetadataWrites(metadata.entries, metadata.entries, Copies(rans));
          metadata := Made(merged);
        }
        start := end;
      } else {
        var ran := run(resolved[start], calls[start], env.(metadata := metadata));
        RemainingOne(run, resolved, calls, start, env.(metadata := metadata), all);
        FillGroup(calls, start, [ran], results, errs);
        metadata := After(metadata, ran);
        start := start + 1;
      }
    }
  }

  /** What the members of one parallel group store, each in its own slot. */
  method FillGroup(calls: seq<Call>, start: nat, rans: seq<Ran>, results: array<Execution>, errs: array<Option<string>>)
    requires start + |rans| <= |calls| == results.Length == errs.Length
    requires forall k :: start <= k < |calls| ==> errs[k] == None
    modifies results, errs
    ensures forall k :: 0 <= k < start ==> results[k] == old(results[k]) && errs[k] == old(errs[k])
    ensures forall k :: start <= k < start + |rans| ==> Slot(results, errs, k, calls[k], rans[k - start].value)
    ensures forall k :: start + |rans| <= k < |calls| ==> errs[k] == None
  {
    for i := 0 to |rans|
      invariant forall k :: 0 <= k < start ==> results[k] == old(results[k]) && errs[k] == old(errs[k])
      invariant forall k :: start <= k < start + i ==> Slot(results, errs, k, calls[k], rans[k - start].value)
      invariant forall k :: start + i <= k < |calls| ==> errs[k] == None
    {
      match rans[i].value {
        case Err(e) => errs[start + i] := Some(e);
        case Ok(v) => results[start + i] := Execution(start + i, calls[start + i], v);
      }
    }
  }

  ghost predicate Slot(results: array<Execution>, errs: array<Option<string>>, k: nat, call: Call, value: ToolReturn)
    reads results, errs
    requires k < results.Length == errs.Length
  {
    match value
    case Err(e) => errs[k] == Some(e)
    case Ok(v) => errs[k] == None && results[k] == Execution(k, call, v)
  }

  /** The slots of the first n calls hold their values. */
  ghost predicate Filled(results: array<Execution>, errs: array<Option<string>>, calls: seq<Call>,
                         values: seq<ToolReturn>, n: nat)
    reads results, errs
    requires n <= |calls| == |values| == results.Length == errs.Length
  {
    forall k :: 0 <= k < n ==> Slot(results, errs, k, calls[k], values[k])
  }

  ghost predicate Remaining(all: Batch, rest: Batch, start: nat) {
    start <= |all.values| && all.values[start..] == rest.values && all.metadata == rest.metadata
  }

  lemma RunBatchGroup(run: Behaviour, tools: seq<Tool>, calls: seq<Call>, start: nat, end: nat, env: Env)
    requires start < |tools| == |calls| && start < end == GroupEnd(tools, start)
    ensures var rans := RunGroup(run, tools, calls, start, end, env);
            var rest := RunBatch(run, tools, calls, end, env.(metadata := AfterGroup(env.metadata, rans)));
            RunBatch(run, tools, calls, start, env) == Batch(Values(rans) + rest.values, rest.metadata)
  {
  }

  lemma RemainingSplit(all: Batch, start: nat, end: nat, values: seq<ToolReturn>, rest: Batch)
    requires start + |values| == end && Remaining(all, Batch(values + rest.values, rest.metadata), start)
    ensures Remaining(all, rest, end) && all.values[start..end] == values
  {
    var whole := values + rest.values;
    assert all.values[start..] == whole;
    assert all.values[end..] == whole[|values|..] == rest.values;
    assert all.values[start..end] == whole[..|values|];
  }

  lemma RemainingOne(run: Behaviour, tools: seq<Tool>, calls: seq<Call>, start: nat, env: Env, all: Batch)
    requires start < |tools| == |calls| && start == GroupEnd(tools, start)
    requires Remaining(all, RunBatch(run, tools, calls, start, env), start)
    ensures var ran := run(tools[start], calls[start], env);
            var next := env.(metadata := After(env.metadata, ran));
            && Remaining(all, RunBatch(run, tools, calls, start + 1, next), start + 1)
            && all.values[start] == ran.value
  {
  }

  // ---- Reserved keys survive tools that leave them alone ----

  predicate Has(metadata: Metadata, flag: Flag) {
    metadata.Made? && Get(metadata.entries, Reserved(flag)) == Some(True)
  }

  /** No tool touches a reserved key that is set. */
  ghost predicate KeepsFlags(run: Behaviour) {
    forall tool: Tool, call: Call, env: Env, flag: Flag ::
      Has(env.metadata, flag) ==> Has(Made(run(tool, call, env).entries), flag)
  }

  lemma GroupKeepsFlag(run: Behaviour, tools: seq<Tool>, calls: seq<Call>, start: nat, end: nat, env: Env, flag: Flag)
    requires start <= end <= |tools| == |calls| && KeepsFlags(run) && Has(env.metadata, flag)
    ensures Has(AfterGroup(env.metadata, RunGroup(run, tools, calls, start, end, env)), flag)
  {
    var rans := RunGroup(run, tools, calls, start, end, env);
    var original := env.metadata.entries;
    forall i | 0 <= i < |rans| ensures !Changed(original, Copies(rans)[i], Reserved(flag)) {
      assert Has(Made(run(tools[start + i], calls[start + i], env).entries), flag);
    }
    UnchangedKept(original, original, Copies(rans), Reserved(flag));
  }

  lemma {:induction false} BatchKeepsFlag(run: Behaviour, tools: seq<Tool>, calls: seq<Call>, start: nat, env: Env,
                                          flag: Flag)
    requires start <= |tools| == |calls| && KeepsFlags(run) && Has(env.metadata, flag)
    ensures Has(RunBatch(run, tools, calls, start, env).metadata, flag)
    decreases |calls| - start
  {
    if start < |calls| {
      var end := GroupEnd(tools, start);
      if start < end {
        GroupKeepsFlag(run, tools, calls, start, end, env, flag);
        var next := AfterGroup(env.metadata, RunGroup(run, tools, calls, start, end, env));
        BatchKeepsFlag(run, tools, calls, end, env.(metadata := next), flag);
      } else {
        var ran := run(tools[start], calls[start], env);
        assert Has(Made(ran.entries), flag);
        BatchKeepsFlag(run, tools, calls, start + 1, env.(metadata := After(env.metadata, ran)), flag);
      }
    }
  }

  /** A reserved key that is set before a batch is set after it, whichever calls ran together. */
  lemma ExecuteKeepsFlag(run: Behaviour, registry: map<string, Tool>, calls: seq<Call>, env: Env, flag: Flag)
    requires KeepsFlags(run) && Has(env.metadata, flag)
    ensures Has(Execute(run, registry, calls, env).metadata, flag)
  {
    if Missing(registry, calls).None? {
      BatchKeepsFlag(run, Resolve(registry, calls), calls, 0, env, flag);
    }
  }

  lemma {:induction false} BatchKeepsMade(run: Behaviour, tools: seq<Tool>, calls: seq<Call>, start: nat, env: Env)
    requires start <= |tools| == |calls|
    ensures RunBatch(run, tools, calls, start, env).metadata.Made? == env.metadata.Made?
    decreases |calls| - start
  {
    if start < |calls| {
      var end := GroupEnd(tools, start);
      if start < end {
        var next := AfterGroup(env.metadata, RunGroup(run, tools, calls, start, end, env));
        BatchKeepsMade(run, tools, calls, end, env.(metadata := next));
      } else {
        var next := After(env.metadata, run(tools[start], calls[start], env));
        BatchKeepsMade(run, tools, calls, start + 1, env.(metadata := next));
      }
    }
  }

  lemma ExecuteKeepsMade(run: Behaviour, registry: map<string, Tool>, calls: seq<Call>, env: Env)
    ensures Execute(run, registry, calls, env).metadata.Made? == env.metadata.Made?
  {
    if Missing(registry, calls).None? {
      BatchKeepsMade(run, Resolve(registry, calls), calls, 0, env);
    }
  }
}
