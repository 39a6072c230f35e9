/** What one turn of a run is made of: the call, its flat message, and the tool calls it leaves open
    (internal/loop/run_call.go, internal/loop/run_loop.go). */
module RunTurns {
  import opened Wrappers
  import opened Lists
  import opened Messages
  import opened Nodes
  import opened Convert
  import opened Protocol
  import opened Ledgers
  import opened Sessions
  import opened RunRecords
  import Dedup

  datatype Error = Error(text: string, overflow: bool, cancelled: bool)

  datatype Config = Config(
    maxTurns: int, tools: seq<Tool>, autoCompact: real, dedup: bool, subagents: bool, watcher: bool)

  datatype Completion = Completion(promptTokens: int, usageReported: bool)

  /** One model call: what it reported, the nodes it added, its record, and the results of calls already answered. */
  datatype ModelCall = ModelCall(comp: Option<Completion>, nodes: seq<Node>, rec: Option<nat>, refused: map<string, ToolOutput>)

  const NotMade := ModelCall(None, [], None, map[])

  /** How a run ends: the transcript, the answer the host finalized, and the error. */
  datatype Ending = Ending(messages: seq<Message>, final: Option<Message>, err: Option<Error>)

  /** What one pass of the loop decides. */
  datatype Next = Again | Further | Over(ending: Ending)

  const NoOutput := "(no output was produced this turn)"

  function FindTool(tools: seq<Tool>, name: string): Option<Tool> {
    if tools == [] then None
    else if tools[0].name == name then Some(tools[0])
    else FindTool(tools[1..], name)
  }

  lemma {:induction false} FindNamed(tools: seq<Tool>, name: string)
    ensures FindTool(tools, name).Some? ==> FindTool(tools, name).value.name == name
  {
    if tools != [] && tools[0].name != name {
      FindNamed(tools[1..], name);
    }
  }

  /** Auto-compaction starts once the prompt reaches this part of the window. */
  function ShouldCompact(cfg: Config, window: int, last: Option<Completion>): bool {
    && cfg.autoCompact > 0.0 && window > 0 && last.Some? && last.value.usageReported
    && last.value.promptTokens >= (cfg.autoCompact * window as real).Floor
  }

  // --- the turn's flat message

  function ThoughtText(bs: seq<ThinkingBlock>): string {
    if bs == [] then "" else ThoughtText(bs[..|bs| - 1]) + bs[|bs| - 1].text
  }

  /** The text to surface when there is no written answer. */
  function FallbackOutput(m: Message): (s: string)
    ensures !Blank(s)
  {
    TrimBlank(m.content);
    TrimBlank(ThoughtText(m.thinking));
    if Trim(m.content) != "" then Trim(m.content)
    else if Trim(ThoughtText(m.thinking)) != "" then Trim(ThoughtText(m.thinking))
    else
      assert !IsSpace(NoOutput[0]);
      NoOutput
  }

  function NoCalls(ps: seq<Part>): (r: seq<Part>)
    ensures forall i :: 0 <= i < |r| ==> !r[i].Call?
  {
    if ps == [] then [] else NoCalls(ps[..|ps| - 1]) + if ps[|ps| - 1].Call? then [] else [ps[|ps| - 1]]
  }

  /** m as an answer: CallFree, and under the id when it is not empty. */
  function WithoutCalls(m: Message, id: string): Message {
    m.(toolCalls := [], parts := NoCalls(m.parts), id := if id != "" then id else m.id)
  }

  predicate CallFree(m: Message) {
    m.toolCalls == [] && forall i :: 0 <= i < |m.parts| ==> !m.parts[i].Call?
  }

  /** An ending that carries the window, and an answer that says something unless the run failed. */
  predicate Fair(e: Ending, window: seq<Message>) {
    && e.messages == window
    && (e.final.Some? ==> CallFree(e.final.value))
    && (e.err.None? ==> e.final.Some? && !Blank(e.final.value.content))
  }

  // --- the calls of a turn

  /** The flat calls of tool-call nodes. */
  function CallsOf(ns: seq<Node>): seq<ToolCall> {
    CallsIn(BodiesOf(ns))
  }

  lemma CallsOfSnoc(ns: seq<Node>, n: Node)
    ensures CallsOf([]) == []
    ensures CallsOf(ns + [n]) == CallsOf(ns) + CallsHere(n)
  {
    assert BodiesOf(ns + [n]) == BodiesOf(ns) + [n.body];
    assert (BodiesOf(ns) + [n.body])[..|ns|] == BodiesOf(ns);
    assert BodiesOf([]) == [];
  }

  function CallsHere(n: Node): seq<ToolCall> {
    if n.body.ToolCallBody? then [ToolCall(n.body.callId, n.body.name, ToolArgs(n.body.arguments.Current()))] else []
  }

  lemma {:induction false} CallsOfParts(ns: seq<Node>)
    ensures FlatMap(ToolCallOf, FlatMap(PartOf, ns)) == CallsOf(ns)
  {
    if ns == [] {
      CallsOfSnoc([], Fresh("", "", None, ExtensionBody));
    } else {
      hide CallsOf, PartOf, CallsHere, FlatMap;
      var init, n := ns[..|ns| - 1], ns[|ns| - 1];
      CallsOfParts(init);
      CallsOfSnoc(init, n);
      assert init + [n] == ns;
      FlatMapSnoc(PartOf, init, n);
      FlatMapConcat(ToolCallOf, FlatMap(PartOf, init), PartOf(n));
      PartOfCalls(n);
    }
  }

  lemma PartOfCalls(n: Node)
    ensures FlatMap(ToolCallOf, PartOf(n)) == CallsHere(n)
  {
    if PartOf(n) != [] {
      assert PartOf(n) == [PartOf(n)[0]];
      FlatMapOne(ToolCallOf, PartOf(n)[0]);
    }
  }

  lemma TurnCalls(ns: seq<Node>)
    ensures Turn(ns).toolCalls == CallsOf(ns)
  {
    CallsOfParts(ns);
  }

  predicate Housed(nodes: seq<Node>, ns: seq<Node>) {
    forall i :: 0 <= i < |ns| ==> ns[i].ref < |nodes| && nodes[ns[i].ref] == ns[i]
  }

  lemma {:induction false} RefsSnoc(init: seq<Node>, n: Node)
    ensures NodeRefs(init + [n]) == NodeRefs(init) + [n.ref]
  {
    assert (init + [n])[..|init|] == init;
  }

  lemma {:induction false} LiveSnoc(nodes: seq<Node>, refs: seq<Ref>, r: Ref)
    requires RefsWithin(refs, |nodes|) && r < |nodes|
    ensures RefsWithin(refs + [r], |nodes|)
    ensures LiveAmong(nodes, refs + [r]) == LiveAmong(nodes, refs) + if nodes[r].LiveCall() then [r] else []
  {
    assert (refs + [r])[..|refs|] == refs;
  }

  lemma MatchSnoc(nodes: seq<Node>, refs: seq<Ref>, calls: seq<ToolCall>, r: Ref, call: ToolCall)
    requires CallsMatch(nodes, refs, calls) && r < |nodes| && IsCall(nodes[r].body, call)
    ensures CallsMatch(nodes, refs + [r], calls + [call])
  {
  }

  lemma OwnCall(n: Node)
    requires n.body.ToolCallBody?
    ensures |CallsHere(n)| == 1 && IsCall(n.body, CallsHere(n)[0])
  {
  }

  /** The live calls of a turn are all its calls, and are those of its flat message, one by one. */
  lemma {:induction false} LiveOfTurn(nodes: seq<Node>, ns: seq<Node>, rec: nat)
    requires Housed(nodes, ns) && AllOfCall(ns, rec)
    ensures RefsWithin(NodeRefs(ns), |nodes|) && LiveAmong(nodes, NodeRefs(ns)) == CallRefs(ns)
    ensures CallsMatch(nodes, CallRefs(ns), CallsOf(ns))
  {
    hide CallsOf, NodeRefs, LiveAmong, CallsMatch, IsCall, CallsHere;
    if ns == [] {
      NoneMatch(nodes);
    } else {
      var init, n := ns[..|ns| - 1], ns[|ns| - 1];
      assert init + [n] == ns;
      LiveOfTurn(nodes, init, rec);
      assert OfCall(n, rec) && nodes[n.ref] == n;
      RefsSnoc(init, n);
      LiveSnoc(nodes, NodeRefs(init), n.ref);
      CallsOfSnoc(init, n);
      if n.LiveCall() {
        OwnCall(n);
        MatchSnoc(nodes, CallRefs(init), CallsOf(init), n.ref, CallsHere(n)[0]);
        assert CallsHere(n) == [CallsHere(n)[0]];
      } else {
        NoneHere(n);
        assert CallRefs(init) + [] == CallRefs(init) && CallsOf(init) + [] == CallsOf(init);
      }
    }
  }

  lemma NoneHere(n: Node)
    requires !n.body.ToolCallBody?
    ensures CallsHere(n) == []
  {
  }

  lemma NoneMatch(nodes: seq<Node>)
    ensures NodeRefs([]) == [] && RefsWithin([], |nodes|) && LiveAmong(nodes, []) == CallRefs([])
    ensures CallsMatch(nodes, CallRefs([]), CallsOf([]))
  {
    CallsOfSnoc([], Fresh("", "", None, ExtensionBody));
  }

  // --- an open turn

  /** The record is that of a model call. */
  predicate OfStream(streams: seq<Stream>, rec: nat) {
    exists k :: 0 <= k < |streams| && streams[k].rec == rec
  }

  lemma OfStreamStill(streams: seq<Stream>, more: seq<Stream>, rec: nat)
    requires OfStream(streams, rec) && streams <= more
    ensures OfStream(more, rec)
  {
    var k :| 0 <= k < |streams| && streams[k].rec == rec;
    assert more[k] == streams[k];
  }

  /** The record rec is a model call's, and a text under it would not continue what the newest request carried. */
  predicate MayText(v: Ledger, rec: nat) {
    && v.start <= v.sent <= |v.trail| && rec < v.records && OfStream(v.streams, rec)
    && (rec >= v.fence || Read(v.Carried()).group == [])
  }

  lemma MayTextOnward(a: Ledger, b: Ledger, rec: nat)
    requires MayText(a, rec) && Onward(a, b)
    ensures MayText(b, rec)
  {
    OfStreamStill(a.streams, b.streams, rec);
  }

  /** The nodes ns are the parts of the newest model call, and end the path. */
  predicate EndsPath(v: Ledger, ns: seq<Node>) {
    v.streams != [] && var x := v.streams[|v.streams| - 1];
    x.at == v.sent && EndOf(x) == |v.trail| && v.trail[x.at..] == ns
  }

  /** The nodes ns of the call rec just joined: what is open is among them, none of them was in the request, and text
      may still join their turn. */
  predicate TurnOpen(v: Ledger, ns: seq<Node>, rec: nat) {
    && EndsPath(v, ns) && AllOfCall(ns, rec) && MayText(v, rec) && rec >= v.fence && Housed(v.nodes, ns)
    && OwnCalls(v, NodeRefs(ns)) && MayMark(v, Elems(NodeRefs(ns)))
  }

  lemma {:induction false} LiveRefsAre(ns: seq<Node>)
    ensures forall i :: 0 <= i < |ns| && ns[i].LiveCall() ==> ns[i].ref in LiveRefs(ns)
    ensures forall r :: r in LiveRefs(ns) ==> exists i :: 0 <= i < |ns| && ns[i].LiveCall() && ns[i].ref == r
  {
    if ns != [] {
      LiveRefsAre(ns[..|ns| - 1]);
      var k := |ns| - 1;
      assert ns[k] == ns[|ns| - 1];
    }
  }

  lemma LiveIsRef(ns: seq<Node>)
    ensures Elems(LiveRefs(ns)) <= Elems(NodeRefs(ns))
  {
    LiveRefsAre(ns);
    forall r | r in LiveRefs(ns) ensures r in NodeRefs(ns) {
      var i :| 0 <= i < |ns| && ns[i].LiveCall() && ns[i].ref == r;
      assert NodeRefs(ns)[i] == r;
    }
  }

  lemma OwnRunShape(v: Ledger, ns: seq<Node>, n: nat)
    requires RefsRun(ns, n) && Housed(v.nodes, ns)
    ensures Distinct(NodeRefs(ns)) && RefsWithin(NodeRefs(ns), |v.nodes|)
  {
  }

  lemma OwnRunOne(v: Ledger, ns: seq<Node>, n: nat, i: nat)
    requires RefsRun(ns, n) && Housed(v.nodes, ns) && RefsUnder(v.foreign, n) && i < |ns| && OnTrail(v.trail, ns[i])
    ensures NodeRefs(ns)[i] < |v.nodes|
    ensures v.nodes[NodeRefs(ns)[i]].LiveCall() ==>
              NodeRefs(ns)[i] !in v.foreign && CallBefore(v.trail, |v.trail|, NodeRefs(ns)[i])
  {
    hide OnTrail, CallBefore;
    if ns[i].LiveCall() {
      OnTrailCall(v.trail, ns[i]);
    }
  }

  lemma OwnRun(v: Ledger, ns: seq<Node>, n: nat)
    requires RefsRun(ns, n) && Housed(v.nodes, ns) && RefsUnder(v.foreign, n)
    requires forall i :: 0 <= i < |ns| ==> OnTrail(v.trail, ns[i])
    requires v.Open().Some? && v.Open().value <= Elems(NodeRefs(ns))
    ensures OwnCalls(v, NodeRefs(ns))
  {
    hide OpenCalls, OnTrail, CallBefore, Elems, RefsRun, Housed, RefsUnder, Distinct, RefsWithin, Nodes.Node.LiveCall;
    OwnRunShape(v, ns, n);
    var refs := NodeRefs(ns);
    assert |refs| == |ns|;
    hide NodeRefs;
    forall i | 0 <= i < |refs|
      ensures refs[i] < |v.nodes|
      ensures v.nodes[refs[i]].LiveCall() ==> refs[i] !in v.foreign && CallBefore(v.trail, |v.trail|, refs[i])
    {
      OwnRunOne(v, ns, n, i);
    }
  }

  predicate OnTrail(t: seq<Node>, n: Node) {
    exists j :: 0 <= j < |t| && t[j] == n
  }

  lemma OnTrailCall(t: seq<Node>, n: Node)
    requires OnTrail(t, n) && n.LiveCall()
    ensures CallBefore(t, |t|, n.ref)
  {
  }

  lemma JoinedOnTrail(t: seq<Node>, ns: seq<Node>)
    ensures forall i :: 0 <= i < |ns| ==> OnTrail(t + ns, ns[i])
  {
    forall i | 0 <= i < |ns| ensures OnTrail(t + ns, ns[i]) {
      assert (t + ns)[|t| + i] == ns[i];
    }
  }

  lemma JoinedHoused(nodes: seq<Node>, ns: seq<Node>)
    requires RefsRun(ns, |nodes|)
    ensures Housed(nodes + ns, ns)
  {
  }

  lemma NewMayMark(v: Ledger, ns: seq<Node>, n: nat)
    requires RefsRun(ns, n) && RefsUnder(v.foreign, n) && v.sent <= |v.trail|
    requires forall i :: 0 <= i < v.sent ==> v.trail[i].ref < n
    ensures MayMark(v, Elems(NodeRefs(ns)))
  {
    forall r | r in Elems(NodeRefs(ns)) ensures r >= n {
      var i :| 0 <= i < |ns| && NodeRefs(ns)[i] == r;
    }
  }

  /** A call made from a path with nothing open leaves its own turn open, and nothing else. */
  lemma {:induction false} StreamedTurn(a: Ledger, ns: seq<Node>, bodies: seq<Body>)
    requires Sound(a) && a.sent == |a.trail| && a.fence == a.records
    requires AllOfCall(ns, a.records) && RefsRun(ns, |a.nodes|) && |ns| == |bodies|
    requires a.Streamed(ns, bodies).Open() == Some(Elems(LiveRefs(ns)))
    ensures TurnOpen(a.Streamed(ns, bodies), ns, a.records)
  {
    hide Sound, OpenCalls, OnTrail, MayMark, OwnCalls, NodeRefs, Elems, LiveRefs, Housed, AllOfCall;
    SoundBounds(a);
    var b := a.Streamed(ns, bodies);
    assert b.streams[|a.streams|].rec == a.records;
    assert b.trail[|a.trail|..] == ns;
    LiveIsRef(ns);
    JoinedOnTrail(a.trail, ns);
    JoinedHoused(a.nodes, ns);
    OwnRun(b, ns, |a.nodes|);
    NewMayMark(b, ns, |a.nodes|);
  }

  /** After a node of no call, no assistant turn is open on the path. */
  lemma ReadEnds(t: seq<Node>, n: Node)
    requires !n.superseded && !n.ModelOutput() && !n.body.ExtensionBody?
    ensures Read(t + [n]).group == []
  {
    assert (t + [n])[..|t|] == t;
  }

  // --- a batch

  /** The batch callNodes after the first `done` of its results. */
  predicate BatchOpen(v: Ledger, callNodes: seq<Ref>, calls: seq<ToolCall>, done: nat) {
    && CallsMatch(v.nodes, callNodes, calls) && OwnCalls(v, callNodes)
    && done <= |callNodes| && v.Open() == Some(Elems(callNodes[done..]))
  }

  /** The calls to answer stand on the path as ShownAfter wants them, with the newest model call last, and end it. */
  predicate Standing(v: Ledger, asked: seq<ToolCall>, batch: seq<ToolCall>, callNodes: seq<Ref>) {
    v.streams != [] && var x := v.streams[|v.streams| - 1];
    && |v.trail| == EndOf(x) + Extra(asked, batch) && callNodes == BatchRefs(v, x, asked, batch)
    && (batch != asked ==> Instead(v, x, batch))
  }

  lemma OwnCallsAnswered(v: Ledger, callNodes: seq<Ref>, r: Node, open: set<Ref>)
    requires OwnCalls(v, callNodes) && !r.body.ToolCallBody?
    requires v.Grown([r], v.records).Open() == Some(open) && open <= v.Open().value
    ensures OwnCalls(v.Grown([r], v.records), callNodes)
  {
    hide OpenCalls;
    var b := v.Grown([r], v.records);
    forall i | 0 <= i < |callNodes| && b.nodes[callNodes[i]].LiveCall() ensures CallBefore(b.trail, |b.trail|, callNodes[i]) {
      assert v.nodes[callNodes[i]].LiveCall();
      var j :| 0 <= j < |v.trail| && v.trail[j].LiveCall() && v.trail[j].ref == callNodes[i];
      assert b.trail[j].LiveCall();
    }
  }

  lemma BatchAnswered(v: Ledger, callNodes: seq<Ref>, calls: seq<ToolCall>, done: nat, r: Node)
    requires BatchOpen(v, callNodes, calls, done) && done < |callNodes| && !r.body.ToolCallBody?
    requires v.Grown([r], v.records).Open() == Some(v.Open().value - {callNodes[done]})
    ensures BatchOpen(v.Grown([r], v.records), callNodes, calls, done + 1)
  {
    hide OpenCalls, OwnCalls;
    OwnDistinct(v, callNodes);
    OwnCallsAnswered(v, callNodes, r, v.Open().value - {callNodes[done]});
    ElemsTail(callNodes, done);
  }

  lemma OwnDistinct(v: Ledger, refs: seq<Ref>)
    requires OwnCalls(v, refs)
    ensures Distinct(refs)
  {
  }

  lemma ElemsTail(s: seq<Ref>, i: nat)
    requires Distinct(s) && i < |s|
    ensures Elems(s[i..]) - {s[i]} == Elems(s[i + 1..])
  {
    assert s[i..] == [s[i]] + s[i + 1..];
    assert forall k :: i < k < |s| ==> s[k] != s[i];
  }

  lemma OwnStands(v: Ledger, ns: seq<Node>, calls: seq<ToolCall>)
    requires EndsPath(v, ns)
    ensures Standing(v, calls, calls, CallRefs(ns))
  {
    hide CallRefs, Instead;
    var x := v.streams[|v.streams| - 1];
    assert v.trail[x.at..EndOf(x)] == v.trail[x.at..];
  }

  /** The model's own batch, as it stands. */
  lemma OwnBatch(v: Ledger, ns: seq<Node>, rec: nat)
    requires Sound(v) && TurnOpen(v, ns, rec) && v.Open() == Some(Elems(LiveRefs(ns)))
    ensures RefsWithin(NodeRefs(ns), |v.nodes|) && Standing(v, CallsOf(ns), CallsOf(ns), LiveAmong(v.nodes, NodeRefs(ns)))
    ensures BatchOpen(v, LiveAmong(v.nodes, NodeRefs(ns)), CallsOf(ns), 0)
  {
    hide Sound, OpenCalls, CallBefore, CallsOf, CallsMatch, CallRefs, Standing;
    OwnStands(v, ns, CallsOf(ns));
    var live := LiveAmong(v.nodes, NodeRefs(ns));
    LiveOfTurn(v.nodes, ns, rec);
    LiveAmongIs(v.nodes, ns);
    assert live[0..] == live;
    assert Elems(live) == Elems(LiveRefs(ns));
    forall i | 0 <= i < |live| ensures live[i] !in v.foreign && CallBefore(v.trail, |v.trail|, live[i]) {
      assert live[i] in NodeRefs(ns);
    }
  }

  lemma LiveAmongIs(nodes: seq<Node>, ns: seq<Node>)
    requires Housed(nodes, ns) && RefsWithin(NodeRefs(ns), |nodes|)
    ensures forall r :: r in LiveAmong(nodes, NodeRefs(ns)) <==> r in LiveRefs(ns)
  {
    LiveRefsAre(ns);
    forall r | r in LiveRefs(ns) ensures r in LiveAmong(nodes, NodeRefs(ns)) {
      var i :| 0 <= i < |ns| && ns[i].LiveCall() && ns[i].ref == r;
      assert NodeRefs(ns)[i] == r && nodes[r] == ns[i];
    }
    forall r | r in LiveAmong(nodes, NodeRefs(ns)) ensures r in LiveRefs(ns) {
      assert r in NodeRefs(ns);
      var i :| 0 <= i < |ns| && NodeRefs(ns)[i] == r;
    }
  }

  lemma {:induction false} MadeAreLive(ns: seq<Node>, calls: seq<ToolCall>, rec: Option<nat>)
    requires |ns| == |calls| && Makes(ns, calls, rec)
    ensures LiveRefs(ns) == NodeRefs(ns)
  {
    if ns != [] {
      var k := |ns| - 1;
      assert Makes(ns[..k], calls[..k], rec);
      MadeAreLive(ns[..k], calls[..k], rec);
      assert Alike(ns[k], Fresh("", "", rec, ToolCallBody(calls[k].id, calls[k].name, Finished(calls[k].arguments))));
    }
  }

  lemma MadeShape(ns: seq<Node>, calls: seq<ToolCall>, rec: Option<nat>)
    requires |ns| == |calls| && Makes(ns, calls, rec)
    ensures AllProduced(ns) && forall i :: 0 <= i < |ns| ==> ns[i].call == rec && ns[i].LiveCall() && ns[i].body == BodyOf(calls[i])
  {
    forall i | 0 <= i < |ns| ensures Produced(ns[i]) && ns[i].call == rec && ns[i].LiveCall() && ns[i].body == BodyOf(calls[i]) {
      assert Alike(ns[i], Fresh("", "", rec, ToolCallBody(calls[i].id, calls[i].name, Finished(calls[i].arguments))));
    }
  }

  /** The record of the calls that are replaced is the turn's own. */
  lemma ReplacedRecord(v: Ledger, ns: seq<Node>, rec: nat)
    requires TurnOpen(v, ns, rec) && RefsWithin(NodeRefs(ns), |v.nodes|)
    ensures LastCall(v.nodes, LiveAmong(v.nodes, NodeRefs(ns))).None? || LastCall(v.nodes, LiveAmong(v.nodes, NodeRefs(ns))) == Some(rec)
  {
    var live := LiveAmong(v.nodes, NodeRefs(ns));
    if live != [] {
      var r := live[|live| - 1];
      assert r in NodeRefs(ns);
      var i :| 0 <= i < |ns| && NodeRefs(ns)[i] == r;
      assert OfCall(ns[i], rec) && v.nodes[r] == ns[i];
    }
  }

  lemma SupersededTurn(v: Ledger, ns: seq<Node>, rec: nat)
    requires Sound(v) && TurnOpen(v, ns, rec) && v.Open() == Some(Elems(LiveRefs(ns))) && RefsWithin(NodeRefs(ns), |v.nodes|)
    ensures var S := Elems(LiveAmong(v.nodes, NodeRefs(ns)));
            MayMark(v, S) && Sound(v.Without(S)) && v.Without(S).Carried() == v.Carried() && v.Without(S).Open() == Some({})
  {
    hide Sound, OpenCalls, OwnCalls;
    var S := Elems(LiveAmong(v.nodes, NodeRefs(ns)));
    LiveAmongIs(v.nodes, ns);
    assert S == Elems(LiveRefs(ns));
    LiveIsRef(ns);
    MarkFewer(v, Elems(NodeRefs(ns)), S);
    SoundWithout(v, S);
    SoundBounds(v);
    OwnSupersede(v.trail, S, v.foreign);
    assert S - S == {};
  }

  lemma MarkFewer(v: Ledger, T: set<Ref>, S: set<Ref>)
    requires MayMark(v, T) && S <= T
    ensures MayMark(v, S)
  {
  }

  lemma MadeOpens(u: Ledger, ms: seq<Node>, calls: seq<ToolCall>, rec: Option<nat>)
    requires RefsUnder(u.foreign, |u.nodes|) && u.Open() == Some({}) && |ms| == |calls| && Makes(ms, calls, rec) && RefsRun(ms, |u.nodes|)
    ensures u.Grown(ms, u.records).Open() == Some(Elems(NodeRefs(ms)))
  {
    hide OpenCalls, Makes, Produced;
    MadeShape(ms, calls, rec);
    MadeAreLive(ms, calls, rec);
    OwnOpens(u.trail, ms, u.foreign, |u.nodes|);
    assert u.Open().value + Elems(LiveRefs(ms)) == Elems(NodeRefs(ms));
  }

  lemma MadeMatch(nodes: seq<Node>, ms: seq<Node>, calls: seq<ToolCall>)
    requires Housed(nodes, ms) && |ms| == |calls|
    requires forall i :: 0 <= i < |ms| ==> ms[i].LiveCall() && ms[i].body == BodyOf(calls[i])
    ensures CallsMatch(nodes, NodeRefs(ms), calls)
  {
  }

  lemma {:induction false} MadeOwn(u: Ledger, ms: seq<Node>)
    requires RefsUnder(u.foreign, |u.nodes|) && RefsRun(ms, |u.nodes|)
    requires u.Grown(ms, u.records).Open() == Some(Elems(NodeRefs(ms)))
    ensures OwnCalls(u.Grown(ms, u.records), NodeRefs(ms)) && Housed(u.Grown(ms, u.records).nodes, ms)
  {
    hide OpenCalls, OnTrail, OwnCalls, NodeRefs, Elems, Housed;
    JoinedOnTrail(u.trail, ms);
    JoinedHoused(u.nodes, ms);
    OwnRun(u.Grown(ms, u.records), ms, |u.nodes|);
  }

  lemma BatchIs(v: Ledger, refs: seq<Ref>, calls: seq<ToolCall>)
    requires CallsMatch(v.nodes, refs, calls) && OwnCalls(v, refs) && v.Open() == Some(Elems(refs))
    ensures BatchOpen(v, refs, calls, 0)
  {
    hide OpenCalls, OwnCalls, CallsMatch;
    assert refs[0..] == refs;
  }

  /** A replaced batch: the model's own calls are off the wire, and the replacement is what is open. */
  lemma ReplacedBatch(u: Ledger, ms: seq<Node>, calls: seq<ToolCall>, rec: Option<nat>)
    requires Sound(u) && u.Open() == Some({}) && |ms| == |calls| && Makes(ms, calls, rec) && RefsRun(ms, |u.nodes|)
    requires rec.Some? ==> MayText(u, rec.value)
    ensures Sound(u.Grown(ms, u.records)) && u.Grown(ms, u.records).Carried() == u.Carried()
    ensures BatchOpen(u.Grown(ms, u.records), NodeRefs(ms), calls, 0)
  {
    hide *;
    SoundBounds(u);
    MadeShape(ms, calls, rec);
    MadeMayGrow(u, ms, rec);
    SoundGrown(u, ms);
    MadeOpens(u, ms, calls, rec);
    MadeOwn(u, ms);
    MadeMatch(u.Grown(ms, u.records).nodes, ms, calls);
    BatchIs(u.Grown(ms, u.records), NodeRefs(ms), calls);
  }

  lemma MadeMayGrow(u: Ledger, ms: seq<Node>, rec: Option<nat>)
    requires RefsRun(ms, |u.nodes|) && (rec.Some? ==> MayText(u, rec.value)) && forall i :: 0 <= i < |ms| ==> ms[i].call == rec
    ensures MayGrow(u, ms, u.records)
  {
  }

  /** Loop-written text joins a turn and opens nothing. */
  lemma TextKeeps(v: Ledger, n: Node, rec: nat, text: string)
    requires Sound(v) && MayText(v, rec) && n.ref == |v.nodes| && Alike(n, Fresh("", "", Some(rec), AssistantBody(Finished(text))))
    ensures Sound(v.Grown([n], v.records)) && v.Grown([n], v.records).Carried() == v.Carried()
    ensures v.Open() == Some({}) ==> v.Grown([n], v.records).Open() == Some({})
  {
    hide Sound, OpenCalls;
    SoundBounds(v);
    MadeMayGrow(v, [n], Some(rec));
    SoundGrown(v, [n]);
    if v.Open() == Some({}) {
      OwnOpens(v.trail, [n], v.foreign, |v.nodes|);
      assert LiveRefs([n]) == LiveRefs([n][..0]) && [n][..0] == [];
      var none: set<Ref> := {};
      assert none + Elems([]) == none;
    }
  }

  /** From a to b one call was made: its request carried the window of a, and what it leaves open is its own turn. */
  predicate CallMade(a: Ledger, b: Ledger, ns: seq<Node>, rec: nat) {
    && TurnOpen(b, ns, rec) && b.Open() == Some(Elems(LiveRefs(ns)))
    && a.start <= |a.trail| && b.start <= b.sent <= |b.trail| && b.Carried() == a.trail[a.start..]
    && a.records <= rec && a.streams <= b.streams
  }

  // --- recording a batch

  /** From a to b the outputs were recorded, one node each and nothing else, in call order. */
  predicate ShowsAll(a: Ledger, b: Ledger, callNodes: seq<Ref>, calls: seq<ToolCall>, outputs: seq<ToolOutput>, marks: map<Ref, Dedup.Key>, hash: string -> string) {
    && a.trail <= b.trail && |a.nodes| <= |b.nodes| && b.streams == a.streams && b.foreign == a.foreign
    && EachShows(b.trail[|a.trail|..], callNodes, calls, outputs, marks, hash, |b.nodes|)
  }

  lemma EachShowsNext(ns: seq<Node>, r: Node, callNodes: seq<Ref>, calls: seq<ToolCall>, outputs: seq<ToolOutput>, output: ToolOutput,
                      was: map<Ref, Dedup.Key>, marks: map<Ref, Dedup.Key>, hash: string -> string, n: nat)
    requires |outputs| < |callNodes| && |outputs| < |calls| && EachShows(ns, callNodes, calls, outputs, was, hash, n)
    requires r.ref == n && MarksGrow(was, marks, n) && ShowsOutput(r, callNodes[|outputs|], calls[|outputs|].name, output, marks, hash)
    ensures EachShows(ns + [r], callNodes, calls, outputs + [output], marks, hash, n + 1)
  {
    forall k | 0 <= k < |ns| ensures ShowsOutput(ns[k], callNodes[k], calls[k].name, outputs[k], marks, hash) {
      assert ns[k].ref in marks <==> ns[k].ref in was;
    }
  }

  lemma ShowsNext(a: Ledger, b: Ledger, r: Node, callNodes: seq<Ref>, calls: seq<ToolCall>, outputs: seq<ToolOutput>, output: ToolOutput,
                  was: map<Ref, Dedup.Key>, marks: map<Ref, Dedup.Key>, hash: string -> string)
    requires |outputs| < |callNodes| && |outputs| < |calls| && ShowsAll(a, b, callNodes, calls, outputs, was, hash)
    requires r.ref == |b.nodes| && MarksGrow(was, marks, |b.nodes|)
    requires ShowsOutput(r, callNodes[|outputs|], calls[|outputs|].name, output, marks, hash)
    ensures ShowsAll(a, b.Grown([r], b.records), callNodes, calls, outputs + [output], marks, hash)
  {
    hide ShowsOutput, MarksGrow, EachShows;
    EachShowsNext(b.trail[|a.trail|..], r, callNodes, calls, outputs, output, was, marks, hash, |b.nodes|);
    assert (b.trail + [r])[|a.trail|..] == b.trail[|a.trail|..] + [r];
  }
}
