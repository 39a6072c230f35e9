/** A batch of tool calls: reads run concurrently, anything else alone and in order (internal/loop/run_loop.go,
    internal/loop/run_tools.go). */
module Dispatch {
  import opened Wrappers
  import opened Messages

  datatype Output = Output(content: string, isError: bool)

  /** A tool over a state S of the world it works on. */
  datatype Tool<!S> = Tool(name: string, readonly: bool, run: (S, string) -> (S, Output))

  datatype Verdict = Allow | Deny(reason: string) | Lost

  /** A call after its hook: the hook failed, or this is what it left to run. */
  datatype Asked = HookFailed | Asked(call: ToolCall)

  /** What a call comes to: a result to record, or an approval that never arrived. */
  datatype Resolved = Recorded(output: Output) | Interrupted

  const DeniedMessage := "The user denied permission to run this tool."

  function Lookup<S(!new)>(tools: seq<Tool<S>>, name: string): Option<Tool<S>> {
    if tools == [] then None
    else if tools[0].name == name then Some(tools[0])
    else Lookup(tools[1..], name)
  }

  /** The approver answers for the i-th call of the batch, whenever it is asked; the host may have a text for tools that
      are not there. */
  datatype Env<!S> = Env(tools: seq<Tool<S>>, approver: Option<(nat, ToolCall) -> Verdict>, calls: seq<Asked>, refused: map<string, Output>,
                        teach: Option<string -> string>)

  /** What a denied call records. */
  function DeniedText(reason: string): string {
    if Trim(reason) != "" then Trim(reason) else DeniedMessage
  }

  /** A denial always says something: the stock message exactly when the reason is blank, and else the reason without the
      white space around it. */
  lemma DenialSays(reason: string) returns (front: string, back: string)
    ensures !Blank(DeniedText(reason))
    ensures Blank(reason) ==> DeniedText(reason) == DeniedMessage
    ensures !Blank(reason) ==> reason == front + DeniedText(reason) + back && Blank(front) && Blank(back)
    ensures !Blank(reason) ==> !IsSpace(DeniedText(reason)[0]) && !IsSpace(DeniedText(reason)[|DeniedText(reason)| - 1])
  {
    hide Trim;
    TrimBlank(reason);
    front, back := TrimCuts(reason);
    assert !IsSpace(DeniedMessage[0]);
  }

  /** Whether a call may run, and what is recorded when it may not. */
  function Ruling<S(!new)>(env: Env<S>, i: nat, call: ToolCall): Option<Resolved> {
    match Lookup(env.tools, call.name)
    case None => Some(Recorded(Output(if env.teach.Some? then env.teach.value(call.name) else "unknown tool: " + call.name, true)))
    case Some(tool) =>
      match env.approver
      case None => if tool.readonly then None else Some(Recorded(Output(DeniedMessage, true)))
      case Some(ask) =>
        match ask(i, call)
        case Lost => Some(Interrupted)
        case Deny(reason) => Some(Recorded(Output(DeniedText(reason), true)))
        case Allow => None
  }

  /** The ruling when there is one, else what the tool makes of the state. */
  function Resolve<S(!new)>(env: Env<S>, s: S, i: nat, call: ToolCall): (S, Resolved) {
    match Ruling(env, i, call)
    case Some(r) => (s, r)
    case None =>
      var ran := Lookup(env.tools, call.name).value.run(s, call.arguments);
      (ran.0, Recorded(ran.1))
  }

  /** A tool runs only when it is known and nobody objects: the approver allows it, or there is none and it only reads. */
  lemma RunsOnlyWhenAllowed<S(!new)>(env: Env<S>, i: nat, call: ToolCall)
    ensures Ruling(env, i, call).None? <==>
              && Lookup(env.tools, call.name).Some?
              && (if env.approver.Some? then env.approver.value(i, call).Allow? else Lookup(env.tools, call.name).value.readonly)
    ensures Ruling(env, i, call) == Some(Interrupted) <==>
              Lookup(env.tools, call.name).Some? && env.approver.Some? && env.approver.value(i, call).Lost?
  {
  }

  // --- one by one

  datatype Kind = Blocked | Answered(output: Output) | Read | Change

  function KindOf<S(!new)>(env: Env<S>, i: nat): Kind
    requires i < |env.calls|
  {
    match env.calls[i]
    case HookFailed => Blocked
    case Asked(call) =>
      if call.id in env.refused then Answered(env.refused[call.id])
      else
        var tool := Lookup(env.tools, call.name);
        if tool.Some? && tool.value.readonly then Read else Change
  }

  /** Running the i-th call in state s. */
  function RunAt<S(!new)>(env: Env<S>, s: S, i: nat): (S, Resolved)
    requires i < |env.calls|
  {
    match KindOf(env, i)
    case Blocked => (s, Interrupted)
    case Answered(output) => (s, Recorded(output))
    case _ => Resolve(env, s, i, env.calls[i].call)
  }

  /** The state after the first i calls, one by one. */
  function After<S(!new)>(env: Env<S>, s: S, i: nat): S
    requires i <= |env.calls|
  {
    if i == 0 then s else RunAt(env, After(env, s, i - 1), i - 1).0
  }

  /** What the i-th call comes to, one by one. */
  function ResultOf<S(!new)>(env: Env<S>, s: S, i: nat): Resolved
    requires i < |env.calls|
  {
    RunAt(env, After(env, s, i), i).1
  }

  /** The batch goes no further than i: its hook failed, or it would change something and its approval never arrived. */
  predicate StopsAt<S(!new)>(env: Env<S>, s: S, i: nat)
    requires i < |env.calls|
  {
    KindOf(env, i).Blocked? || (KindOf(env, i).Change? && ResultOf(env, s, i).Interrupted?)
  }

  /** How many calls are run, from the i-th on, one by one. */
  function Served<S(!new)>(env: Env<S>, s: S, i: nat): (n: nat)
    requires i <= |env.calls|
    ensures i <= n <= |env.calls|
    decreases |env.calls| - i
  {
    if i == |env.calls| || KindOf(env, i).Blocked? then i
    else if StopsAt(env, s, i) then i + 1
    else Served(env, s, i + 1)
  }

  ghost predicate ReadsOnlyRead<S(!new)>(env: Env<S>) {
    forall i, s, a :: 0 <= i < |env.tools| && env.tools[i].readonly ==> env.tools[i].run(s, a).0 == s
  }

  lemma {:induction false} LookupReads<S(!new)>(tools: seq<Tool<S>>, name: string)
    ensures Lookup(tools, name).Some? ==> Lookup(tools, name).value in tools
  {
    if tools != [] && tools[0].name != name {
      LookupReads(tools[1..], name);
    }
  }

  lemma ReadKeeps<S(!new)>(env: Env<S>, s: S, i: nat)
    requires ReadsOnlyRead(env) && i < |env.calls| && !KindOf(env, i).Change?
    ensures RunAt(env, s, i).0 == s
  {
    if KindOf(env, i).Read? {
      LookupReads(env.tools, env.calls[i].call.name);
    }
  }

  // --- as the loop runs it

  /** The dispatcher is at `next`; reads that were started and are not done; a change under way; results so far. */
  datatype State<!S> = State(next: nat, running: set<nat>, changing: bool, stopped: bool, results: map<nat, Resolved>, world: S)

  /** What can happen next: the dispatcher moves on, the change it waits for ends, or a read ends. */
  datatype Choice = Move | EndChange | EndRead(at: nat)

  function Step<S(!new)>(env: Env<S>, st: State<S>, c: Choice): State<S> {
    match c
    case Move =>
      if st.stopped || st.changing || st.next >= |env.calls| then st
      else (
        match KindOf(env, st.next)
        case Blocked => st.(stopped := true)
        case Answered(output) => st.(results := st.results[st.next := Recorded(output)], next := st.next + 1)
        case Read => st.(running := st.running + {st.next}, next := st.next + 1)
        case Change => if st.running == {} then st.(changing := true) else st)
    case EndChange =>
      if !st.changing || st.next >= |env.calls| then st
      else
        var ran := RunAt(env, st.world, st.next);
        st.(results := st.results[st.next := ran.1], next := st.next + 1, changing := false, stopped := ran.1.Interrupted?, world := ran.0)
    case EndRead(j) =>
      if j !in st.running || j >= |env.calls| then st
      else
        var ran := RunAt(env, st.world, j);
        st.(results := st.results[j := ran.1], running := st.running - {j}, world := ran.0)
  }

  function Start<S(!new)>(s: S): State<S> {
    State(0, {}, false, false, map[], s)
  }

  function Play<S(!new)>(env: Env<S>, st: State<S>, choices: seq<Choice>): State<S> {
    if choices == [] then st else Step(env, Play(env, st, choices[..|choices| - 1]), choices[|choices| - 1])
  }

  /** Reads under way see the state of their own place in the order, and so will every read that starts. */
  ghost predicate ReadsInPlace<S(!new)>(env: Env<S>, s: S, st: State<S>)
    requires st.next <= |env.calls|
  {
    && st.world == After(env, s, st.next)
    && (forall j :: j in st.running ==> 0 <= j < st.next && j !in st.results && KindOf(env, j).Read? && After(env, s, j) == st.world)
  }

  ghost predicate ResultsInPlace<S(!new)>(env: Env<S>, s: S, st: State<S>)
    requires st.next <= |env.calls|
  {
    && (forall j :: j in st.results ==> 0 <= j < st.next && st.results[j] == ResultOf(env, s, j))
    && (forall j :: 0 <= j < st.next ==> j in st.running || j in st.results)
  }

  ghost predicate StopsInPlace<S(!new)>(env: Env<S>, s: S, st: State<S>)
    requires st.next <= |env.calls|
  {
    && (forall j :: 0 <= j < st.next && StopsAt(env, s, j) ==> st.stopped && j == st.next - 1 && !KindOf(env, j).Blocked?)
    && (st.stopped ==> (st.next < |env.calls| && KindOf(env, st.next).Blocked?) || (st.next > 0 && StopsAt(env, s, st.next - 1)))
    && (st.changing ==> !st.stopped)
  }

  /** No call that may change something overlaps any other call of the batch. */
  ghost predicate Alone<S(!new)>(env: Env<S>, st: State<S>) {
    && st.next <= |env.calls|
    && (st.changing ==> st.running == {} && st.next < |env.calls| && KindOf(env, st.next).Change?)
  }

  ghost predicate Sound<S(!new)>(env: Env<S>, s: S, st: State<S>) {
    Alone(env, st) && ReadsInPlace(env, s, st) && ResultsInPlace(env, s, st) && StopsInPlace(env, s, st)
  }

  lemma SoundStart<S(!new)>(env: Env<S>, s: S)
    ensures Sound(env, s, Start(s))
  {
  }

  lemma AfterNext<S(!new)>(env: Env<S>, s: S, i: nat)
    requires i < |env.calls|
    ensures After(env, s, i + 1) == RunAt(env, After(env, s, i), i).0
    ensures ResultOf(env, s, i) == RunAt(env, After(env, s, i), i).1
    ensures KindOf(env, i).Answered? ==> ResultOf(env, s, i) == Recorded(KindOf(env, i).output)
  {
  }

  lemma MoveRead<S(!new)>(env: Env<S>, s: S, st: State<S>)
    requires ReadsOnlyRead(env) && Sound(env, s, st) && !st.stopped && !st.changing && st.next < |env.calls| && KindOf(env, st.next).Read?
    ensures Sound(env, s, st.(running := st.running + {st.next}, next := st.next + 1))
  {
    hide KindOf, RunAt, ResultOf, After, ReadsOnlyRead;
    ReadKeeps(env, st.world, st.next);
    AfterNext(env, s, st.next);
  }

  lemma MoveAnswered<S(!new)>(env: Env<S>, s: S, st: State<S>)
    requires ReadsOnlyRead(env) && Sound(env, s, st) && !st.stopped && !st.changing && st.next < |env.calls| && KindOf(env, st.next).Answered?
    ensures Sound(env, s, st.(results := st.results[st.next := Recorded(KindOf(env, st.next).output)], next := st.next + 1))
  {
    hide KindOf, RunAt, ResultOf, After, ReadsOnlyRead;
    ReadKeeps(env, st.world, st.next);
    AfterNext(env, s, st.next);
  }

  lemma SoundMove<S(!new)>(env: Env<S>, s: S, st: State<S>)
    requires ReadsOnlyRead(env) && Sound(env, s, st)
    ensures Sound(env, s, Step(env, st, Move))
  {
    hide KindOf, RunAt, ResultOf, After, ReadsOnlyRead;
    if !st.stopped && !st.changing && st.next < |env.calls| {
      match KindOf(env, st.next)
      case Read => MoveRead(env, s, st);
      case Answered(_) => MoveAnswered(env, s, st);
      case _ =>
    }
  }

  lemma SoundEndChange<S(!new)>(env: Env<S>, s: S, st: State<S>)
    requires Sound(env, s, st)
    ensures Sound(env, s, Step(env, st, EndChange))
  {
    hide KindOf, RunAt, ResultOf, After;
    if st.changing {
      AfterNext(env, s, st.next);
    }
  }

  lemma SoundEndRead<S(!new)>(env: Env<S>, s: S, st: State<S>, j: nat)
    requires ReadsOnlyRead(env) && Sound(env, s, st)
    ensures Sound(env, s, Step(env, st, EndRead(j)))
  {
    hide KindOf, RunAt, ResultOf, After, ReadsOnlyRead, StopsAt;
    if j in st.running {
      ReadKeeps(env, st.world, j);
      AfterNext(env, s, j);
    }
  }

  /** In every interleaving no change overlaps another call, and each result is what the call gives in its own place. */
  lemma {:induction false} EveryOrderIsSound<S(!new)>(env: Env<S>, s: S, choices: seq<Choice>)
    requires ReadsOnlyRead(env)
    ensures Sound(env, s, Play(env, Start(s), choices))
  {
    hide Sound, Step, ReadsOnlyRead;
    if choices == [] {
      SoundStart(env, s);
    } else {
      var before := Play(env, Start(s), choices[..|choices| - 1]);
      EveryOrderIsSound(env, s, choices[..|choices| - 1]);
      match choices[|choices| - 1]
      case Move => SoundMove(env, s, before);
      case EndChange => SoundEndChange(env, s, before);
      case EndRead(j) => SoundEndRead(env, s, before, j);
    }
  }

  /** The dispatcher is through, and every read it started is done. */
  predicate Through<S(!new)>(env: Env<S>, st: State<S>) {
    (st.stopped || st.next == |env.calls|) && st.running == {} && !st.changing
  }

  lemma {:induction false} ServedTo<S(!new)>(env: Env<S>, s: S, i: nat, n: nat)
    requires i <= n <= |env.calls|
    requires forall j :: i <= j < n && StopsAt(env, s, j) ==> j == n - 1 && !KindOf(env, j).Blocked?
    requires n == |env.calls| || KindOf(env, n).Blocked? || (n > i && StopsAt(env, s, n - 1))
    ensures Served(env, s, i) == n
    decreases n - i
  {
    if i < n && !StopsAt(env, s, i) {
      ServedTo(env, s, i + 1, n);
    }
  }

  /** At a sound end, as many calls are served as one by one, and all of them have their results. */
  lemma SoundEnd<S(!new)>(env: Env<S>, s: S, st: State<S>)
    requires Sound(env, s, st) && Through(env, st)
    ensures st.next <= |env.calls| && Served(env, s, 0) == st.next && st.world == After(env, s, st.next)
    ensures forall j :: j in st.results <==> 0 <= j < st.next
    ensures forall j :: 0 <= j < st.next ==> st.results[j] == ResultOf(env, s, j)
  {
    hide KindOf, ResultOf, After, StopsAt, Served;
    ServedTo(env, s, 0, st.next);
  }

  /** However the reads interleave, the batch ends with the results and the state that running the calls one by one, as
      far as they go, would give. */
  lemma Serializable<S(!new)>(env: Env<S>, s: S, choices: seq<Choice>)
    requires ReadsOnlyRead(env) && Through(env, Play(env, Start(s), choices))
    ensures var st, n := Play(env, Start(s), choices), Served(env, s, 0);
            && st.next == n && st.world == After(env, s, n)
            && (forall j :: j in st.results <==> 0 <= j < n)
            && (forall j :: 0 <= j < n ==> st.results[j] == ResultOf(env, s, j))
  {
    hide KindOf, ResultOf, After, StopsAt, Served, Sound, Play, ReadsOnlyRead, Through;
    EveryOrderIsSound(env, s, choices);
    SoundEnd(env, s, Play(env, Start(s), choices));
  }

  /** With hooks that pass and approvals that arrive, that is every call of the batch. */
  lemma AllServed<S(!new)>(env: Env<S>, s: S, i: nat)
    requires i <= |env.calls|
    requires forall j :: 0 <= j < |env.calls| ==> env.calls[j].Asked?
    requires forall j, c :: env.approver.Some? ==> !env.approver.value(j, c).Lost?
    ensures Served(env, s, i) == |env.calls|
    decreases |env.calls| - i
  {
    if i < |env.calls| {
      AllServed(env, s, i + 1);
    }
  }

  // --- what one call does, by itself

  predicate NoneNamed<S(!new)>(tools: seq<Tool<S>>, name: string) {
    forall k :: 0 <= k < |tools| ==> tools[k].name != name
  }

  /** The k-th tool is the first of that name. */
  predicate FirstNamed<S(!new)>(tools: seq<Tool<S>>, name: string, k: nat) {
    k < |tools| && tools[k].name == name && NoneNamed(tools[..k], name)
  }

  /** The tool ran on the call's arguments in the state w, and r is its output. */
  ghost predicate Ran<S(!new)>(t: Tool<S>, arguments: string, w: S, w': S, r: Resolved) {
    w' == t.run(w, arguments).0 && r == Recorded(t.run(w, arguments).1)
  }

  /** The tool did not run, and the result is an error that says this. */
  ghost predicate Refused<S(!new)>(text: string, w: S, w': S, r: Resolved) {
    w' == w && r == Recorded(Output(text, true))
  }

  /** What comes of a call for the tool t: it runs when the approver allows it, or when there is none and it only reads. */
  ghost predicate Judged<S(!new)>(env: Env<S>, i: nat, call: ToolCall, t: Tool<S>, w: S, w': S, r: Resolved) {
    match env.approver
    case None => if t.readonly then Ran(t, call.arguments, w, w', r) else Refused(DeniedMessage, w, w', r)
    case Some(ask) =>
      match ask(i, call)
      case Allow => Ran(t, call.arguments, w, w', r)
      case Deny(reason) => Refused(if Blank(reason) then DeniedMessage else Trim(reason), w, w', r)
      case Lost => w' == w && r == Interrupted
  }

  /** The i-th call takes the state w to w' and comes to r: its result is the one its stream was given; or there is no
      such tool; or the first tool of that name is put to the approver. */
  ghost predicate Serves<S(!new)>(env: Env<S>, i: nat, w: S, w': S, r: Resolved)
    requires i < |env.calls|
  {
    && env.calls[i].Asked?
    && var call := env.calls[i].call;
       if call.id in env.refused then w' == w && r == Recorded(env.refused[call.id])
       else if NoneNamed(env.tools, call.name) then
         Refused(if env.teach.Some? then env.teach.value(call.name) else "unknown tool: " + call.name, w, w', r)
       else exists k: nat :: FirstNamed(env.tools, call.name, k) && Judged(env, i, call, env.tools[k], w, w', r)
  }

  /** The i-th call is for a tool that only reads, and has no result yet. */
  ghost predicate OnlyReads<S(!new)>(env: Env<S>, i: nat)
    requires i < |env.calls|
  {
    && env.calls[i].Asked? && env.calls[i].call.id !in env.refused
    && exists k: nat :: FirstNamed(env.tools, env.calls[i].call.name, k) && env.tools[k].readonly
  }

  /** The batch ends at n: it is through, or the next hook failed, or a call that is not a read was left without approval;
      and no call before the last was one of those. */
  ghost predicate EndsAt<S(!new)>(env: Env<S>, n: nat, results: map<nat, Resolved>)
    requires n <= |env.calls| && forall j :: 0 <= j < n ==> j in results
  {
    && (n == |env.calls| || env.calls[n].HookFailed? || (n > 0 && results[n - 1] == Interrupted && !OnlyReads(env, n - 1)))
    && (forall j :: 0 <= j < n - 1 && results[j] == Interrupted ==> OnlyReads(env, j))
  }

  lemma {:induction false} LookupIs<S(!new)>(tools: seq<Tool<S>>, name: string) returns (k: nat)
    ensures Lookup(tools, name).None? <==> NoneNamed(tools, name)
    ensures Lookup(tools, name).Some? ==> FirstNamed(tools, name, k) && Lookup(tools, name).value == tools[k]
  {
    k := 0;
    if tools != [] && tools[0].name != name {
      var m := LookupIs(tools[1..], name);
      k := m + 1;
      assert tools == [tools[0]] + tools[1..];
      if Lookup(tools, name).Some? {
        assert tools[..k] == [tools[0]] + tools[1..][..m];
      }
    }
  }

  lemma FirstIsOne<S(!new)>(tools: seq<Tool<S>>, name: string, j: nat, k: nat)
    requires FirstNamed(tools, name, j) && FirstNamed(tools, name, k)
    ensures j == k
  {
    forall m | 0 <= m < k ensures tools[m].name != name {
      assert tools[..k][m] == tools[m];
    }
    forall m | 0 <= m < j ensures tools[m].name != name {
      assert tools[..j][m] == tools[m];
    }
  }

  lemma JudgedIs<S(!new)>(env: Env<S>, i: nat, call: ToolCall, t: Tool<S>, w: S)
    requires Lookup(env.tools, call.name) == Some(t)
    ensures var ran := Resolve(env, w, i, call); Judged(env, i, call, t, w, ran.0, ran.1)
  {
    hide Lookup, Trim;
    if env.approver.Some? && env.approver.value(i, call).Deny? {
      TrimBlank(env.approver.value(i, call).reason);
    }
  }

  lemma ServesIs<S(!new)>(env: Env<S>, i: nat, w: S)
    requires i < |env.calls| && !KindOf(env, i).Blocked?
    ensures Serves(env, i, w, RunAt(env, w, i).0, RunAt(env, w, i).1)
  {
    hide Lookup, Judged, FirstNamed;
    var call := env.calls[i].call;
    if call.id !in env.refused {
      var k := LookupIs(env.tools, call.name);
      if Lookup(env.tools, call.name).Some? {
        JudgedIs(env, i, call, env.tools[k], w);
      }
    }
  }

  lemma ReadIs<S(!new)>(env: Env<S>, i: nat)
    requires i < |env.calls|
    ensures KindOf(env, i).Read? <==> OnlyReads(env, i)
  {
    hide Lookup, FirstNamed;
    if env.calls[i].Asked? && env.calls[i].call.id !in env.refused {
      var call := env.calls[i].call;
      var k := LookupIs(env.tools, call.name);
      forall j: nat | FirstNamed(env.tools, call.name, j) ensures Lookup(env.tools, call.name).Some? && j == k {
        FirstNotNone(env.tools, call.name, j);
        FirstIsOne(env.tools, call.name, j, k);
      }
    }
  }

  lemma FirstNotNone<S(!new)>(tools: seq<Tool<S>>, name: string, k: nat)
    requires FirstNamed(tools, name, k)
    ensures !NoneNamed(tools, name)
  {
  }

  lemma ServedResult<S(!new)>(env: Env<S>, s: S, i: nat)
    requires i < |env.calls|
    ensures !KindOf(env, i).Blocked? ==> Serves(env, i, After(env, s, i), After(env, s, i + 1), ResultOf(env, s, i))
    ensures KindOf(env, i).Blocked? <==> env.calls[i].HookFailed?
    ensures KindOf(env, i).Answered? ==> ResultOf(env, s, i).Recorded?
  {
    hide Serves, Lookup, Resolve;
    AfterNext(env, s, i);
    if !KindOf(env, i).Blocked? {
      ServesIs(env, i, After(env, s, i));
    }
  }

  /** Whatever the interleaving, a batch that is through has taken its calls one after the other from state to state: each
      was refused with an error that says why and changed nothing, or its own tool ran on its own arguments in the state
      the calls before it left. */
  lemma RunsOneByOne<S(!new)>(env: Env<S>, s: S, choices: seq<Choice>) returns (states: seq<S>)
    requires ReadsOnlyRead(env) && Through(env, Play(env, Start(s), choices))
    ensures var st := Play(env, Start(s), choices);
            && st.next <= |env.calls| && |states| == st.next + 1 && states[0] == s && states[st.next] == st.world
            && (forall j :: j in st.results <==> 0 <= j < st.next)
            && (forall j :: 0 <= j < st.next ==> Serves(env, j, states[j], states[j + 1], st.results[j]))
            && EndsAt(env, st.next, st.results)
  {
    hide KindOf, ResultOf, After, Sound, Play, ReadsOnlyRead, Through, Serves, OnlyReads;
    var st := Play(env, Start(s), choices);
    EveryOrderIsSound(env, s, choices);
    EndsInPlace(env, s, st);
    AfterNone(env, s);
    states := seq(st.next + 1, i requires 0 <= i <= st.next => After(env, s, i));
  }

  lemma AfterNone<S(!new)>(env: Env<S>, s: S)
    ensures After(env, s, 0) == s
  {
  }

  lemma EndsInPlace<S(!new)>(env: Env<S>, s: S, st: State<S>)
    requires Sound(env, s, st) && Through(env, st)
    ensures st.next <= |env.calls| && st.world == After(env, s, st.next)
    ensures forall j :: j in st.results <==> 0 <= j < st.next
    ensures forall j :: 0 <= j < st.next ==> Serves(env, j, After(env, s, j), After(env, s, j + 1), st.results[j])
    ensures EndsAt(env, st.next, st.results)
  {
    hide KindOf, ResultOf, After, Serves, OnlyReads;
    forall j | 0 <= j < st.next ensures Serves(env, j, After(env, s, j), After(env, s, j + 1), st.results[j]) {
      ServedResult(env, s, j);
      assert StopsAt(env, s, j) ==> !KindOf(env, j).Blocked?;
    }
    forall j | 0 <= j < |env.calls|
      ensures KindOf(env, j).Read? <==> OnlyReads(env, j)
      ensures KindOf(env, j).Blocked? <==> env.calls[j].HookFailed?
      ensures KindOf(env, j).Answered? ==> ResultOf(env, s, j).Recorded?
    {
      ReadIs(env, j);
      ServedResult(env, s, j);
    }
  }
}
