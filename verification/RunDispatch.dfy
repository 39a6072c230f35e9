/** The concurrent batch as a run records it (internal/loop/run_loop.go). */
module RunDispatch {
  import opened Wrappers
  import opened Messages
  import opened Nodes
  import opened Ledgers
  import opened RunRecords
  import opened Dispatch
  import Dedup

  function AsOutput(o: Dispatch.Output): ToolOutput {
    ToolOutput(o.content, o.isError)
  }

  function OutputIn(r: Resolved): ToolOutput {
    match r
    case Recorded(output) => AsOutput(output)
    case Interrupted => ToolOutput("", false)
  }

  /** The batch of env as its hooks left it, with the results given from its stream. */
  predicate IsBatch<S(!new)>(env: Env<S>, asked: seq<ToolCall>, refused: map<string, ToolOutput>) {
    && |env.calls| == |asked| && (forall k :: 0 <= k < |asked| ==> env.calls[k] == Asked(asked[k]))
    && env.refused.Keys == refused.Keys && forall id :: id in refused ==> AsOutput(env.refused[id]) == refused[id]
  }

  /** Asked at the i-th event, the world lets these calls through its hooks, and gives for each what it comes to in its
      place when the batch runs one by one. */
  ghost predicate WorldRuns<S(!new)>(w: World, i: nat, env: Env<S>, s: S, asked: seq<ToolCall>, refused: map<string, ToolOutput>)
    requires |env.calls| == |asked|
  {
    forall k :: 0 <= k < |asked| ==>
      w.hook(i, k) == Some(asked[k]) && (asked[k].id !in refused ==> w.output(i, k) == OutputIn(ResultOf(env, s, k)))
  }

  /** What the concurrent batch records, in call order. */
  function Collected<S(!new)>(st: State<S>, n: nat): (outputs: seq<ToolOutput>)
    ensures |outputs| == n
    ensures forall k :: 0 <= k < n ==> outputs[k] == if k in st.results then OutputIn(st.results[k]) else ToolOutput("", false)
  {
    if n == 0 then []
    else Collected(st, n - 1) + [if n - 1 in st.results then OutputIn(st.results[n - 1]) else ToolOutput("", false)]
  }

  /** Every approval arrives; one that does not ends the run, and nothing of the batch is recorded. */
  predicate NoneLost<S(!new)>(env: Env<S>, s: S) {
    forall k :: 0 <= k < |env.calls| ==> ResultOf(env, s, k).Recorded?
  }

  lemma OneByOne<S(!new)>(w: World, i: nat, env: Env<S>, s: S, asked: seq<ToolCall>, refused: map<string, ToolOutput>, k: nat)
    requires IsBatch(env, asked, refused) && WorldRuns(w, i, env, s, asked, refused) && k < |asked|
    ensures w.hook(i, k) == Some(asked[k])
    ensures OutputIn(ResultOf(env, s, k)) == if asked[k].id in refused then refused[asked[k].id] else w.output(i, k)
  {
    hide After;
    assert env.calls[k] == Asked(asked[k]);
    if asked[k].id in refused {
      AfterNext(env, s, k);
    }
  }

  /** When every call is served and none is lost, however the reads interleaved, what the concurrent batch collected is
      what a run may record of it: results given from the stream, and for the rest what the tools give. */
  lemma ConcurrentResolves<S(!new)>(w: World, i: nat, env: Env<S>, s: S, choices: seq<Choice>, done: seq<ToolCall>,
                                    asked: seq<ToolCall>, refused: map<string, ToolOutput>)
    requires ReadsOnlyRead(env) && Through(env, Play(env, Start(s), choices)) && Play(env, Start(s), choices).next == |env.calls| && NoneLost(env, s)
    requires IsBatch(env, asked, refused) && WorldRuns(w, i, env, s, asked, refused) && |done| == |asked|
    ensures Resolves(w, i, refused, done, asked, Collected(Play(env, Start(s), choices), |asked|))
  {
    hide Play, Served, ResultOf, After, ReadsOnlyRead, IsBatch, WorldRuns, OutputIn, NoneLost;
    var st := Play(env, Start(s), choices);
    Serializable(env, s, choices);
    BatchLength(env, asked, refused);
    forall k | 0 <= k < |asked|
      ensures w.hook(i, k) == Some(asked[k])
      ensures Collected(st, |asked|)[k] == if asked[k].id in refused then refused[asked[k].id] else w.output(i, k)
    {
      OneByOne(w, i, env, s, asked, refused, k);
    }
  }

  lemma BatchLength<S(!new)>(env: Env<S>, asked: seq<ToolCall>, refused: map<string, ToolOutput>)
    requires IsBatch(env, asked, refused)
    ensures |env.calls| == |asked|
  {
  }

  /** What a run may record of a batch is one thing only. */
  lemma ResolvesOnce(w: World, i: nat, refused: map<string, ToolOutput>, done: seq<ToolCall>,
                     asked: seq<ToolCall>, outputs: seq<ToolOutput>, asked': seq<ToolCall>, outputs': seq<ToolOutput>)
    requires Resolves(w, i, refused, done, asked, outputs) && Resolves(w, i, refused, done, asked', outputs')
    ensures asked == asked' && outputs == outputs'
  {
    forall k | 0 <= k < |asked| ensures asked[k] == asked'[k] && outputs[k] == outputs'[k] {
      assert w.hook(i, k) == Some(asked[k]) == Some(asked'[k]);
    }
  }

  /** So whatever a run recorded of the batch is what the concurrent one collected. */
  lemma RecordedIsConcurrent<S(!new)>(w: World, i: nat, env: Env<S>, s: S, choices: seq<Choice>, done: seq<ToolCall>,
                                      asked: seq<ToolCall>, refused: map<string, ToolOutput>, heard: seq<ToolCall>, outputs: seq<ToolOutput>)
    requires ReadsOnlyRead(env) && Through(env, Play(env, Start(s), choices)) && Play(env, Start(s), choices).next == |env.calls| && NoneLost(env, s)
    requires IsBatch(env, asked, refused) && WorldRuns(w, i, env, s, asked, refused) && |done| == |asked|
    requires Resolves(w, i, refused, done, heard, outputs)
    ensures heard == asked && outputs == Collected(Play(env, Start(s), choices), |asked|)
  {
    hide Play, ReadsOnlyRead, IsBatch, WorldRuns, Resolves, Through, NoneLost;
    ConcurrentResolves(w, i, env, s, choices, done, asked, refused);
    ResolvesOnce(w, i, refused, done, heard, outputs, asked, Collected(Play(env, Start(s), choices), |asked|));
  }

  /** And on the record: whatever the interleaving, the result on each call of the batch shows what the call comes to when
      the batch runs one by one, which is what the concurrent one collected for it. */
  lemma CallShowsItsOwn<S(!new)>(w: World, log: seq<Event>, i: nat, env: Env<S>, s: S, choices: seq<Choice>,
                                 v0: Ledger, v: Ledger, marks: map<Ref, Dedup.Key>, hash: string -> string, k: nat) returns (n: Node)
    requires RunRecords.Follows(log, w) && 0 < i < |log| && log[i].Ran? && log[i - 1].Batch? && RunShown(log, i, v0, v, marks, hash)
    requires ReadsOnlyRead(env) && Through(env, Play(env, Start(s), choices)) && Play(env, Start(s), choices).next == |env.calls| && NoneLost(env, s)
    requires IsBatch(env, log[i].asked, log[i - 1].refused) && WorldRuns(w, i, env, s, log[i].asked, log[i - 1].refused)
    requires k < |log[i].done|
    ensures n in v.trail && n.LinkedResult() && n.body.answers.ref < |v.nodes| && IsCall(v.nodes[n.body.answers.ref].body, log[i].done[k])
    ensures |log[i].asked| == |log[i].done|
    ensures ShowsOutput(n, n.body.answers.ref, log[i].done[k].name, Collected(Play(env, Start(s), choices), |log[i].asked|)[k], marks, hash)
    ensures k < |env.calls| && Collected(Play(env, Start(s), choices), |log[i].asked|)[k] == OutputIn(ResultOf(env, s, k))
  {
    hide Play, ReadsOnlyRead, IsBatch, WorldRuns, Resolves, Through, NoneLost, RunShown, ShowsOutput, IsCall, ResultOf, OutputIn;
    var batch := log[i - 1];
    assert FollowsAt(log, i, w);
    ResolvedLength(w, i, batch.refused, log[i].done, log[i].asked, log[i].outputs);
    RecordedIsConcurrent(w, i, env, s, choices, log[i].done, log[i].asked, batch.refused, log[i].asked, log[i].outputs);
    n := ResultOfCall(log, i, v0, v, marks, hash, k);
    BatchLength(env, log[i].asked, batch.refused);
    CollectedOne(env, s, choices, k, |log[i].asked|);
  }

  lemma ResolvedLength(w: World, i: nat, refused: map<string, ToolOutput>, done: seq<ToolCall>, asked: seq<ToolCall>, outputs: seq<ToolOutput>)
    requires Resolves(w, i, refused, done, asked, outputs)
    ensures |asked| == |done| == |outputs|
  {
  }

  lemma CollectedOne<S(!new)>(env: Env<S>, s: S, choices: seq<Choice>, k: nat, n: nat)
    requires ReadsOnlyRead(env) && Through(env, Play(env, Start(s), choices)) && Play(env, Start(s), choices).next == |env.calls|
    requires k < n == |env.calls|
    ensures Collected(Play(env, Start(s), choices), n)[k] == OutputIn(ResultOf(env, s, k))
  {
    hide Play, ReadsOnlyRead, ResultOf, OutputIn;
    Serializable(env, s, choices);
  }

  /** There is such a world, for every batch. */
  lemma WorldExists<S(!new)>(i: nat, env: Env<S>, s: S, asked: seq<ToolCall>, refused: map<string, ToolOutput>) returns (w: World)
    requires |env.calls| == |asked|
    ensures WorldRuns(w, i, env, s, asked, refused)
  {
    hide ResultOf;
    w := World(
      (n: nat) => [], (n: nat) => refused, (n: nat) => None, (n: nat) => [], (n: nat) => None, (n: nat) => asked,
      (n: nat, k: nat) => if k < |asked| then Some(asked[k]) else None,
      (n: nat, k: nat) => if k < |env.calls| then OutputIn(ResultOf(env, s, k)) else ToolOutput("", false));
  }
}
