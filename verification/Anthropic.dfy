/** The Messages API, streamed and whole: both come to the same turn (core/anthropic_stream.go,
    core/anthropic_nonstream.go). */
module Anthropic {
  import opened Wrappers
  import opened Lists
  import opened Nodes
  import opened Convert
  import opened Sessions
  import M = Messages
  import StreamStrings
  import StateCheck

  /** What one block of an answer holds. A block of any other type is kept as its JSON. */
  datatype Block =
    | Text(text: string)
    | Thinking(thought: string, signature: string)
    | Redacted(data: string)
    | ToolUse(id: string, name: string, input: string)
    | Unknown(kind: string, json: string)

  /** What the endpoint counted. Cached tokens are left out of `input`. */
  datatype Counts = Counts(input: int, output: Option<int>, cacheRead: Option<int>, cacheWrite: Option<int>)

  datatype Usage = Usage(prompt: int, completion: int, total: int, cacheRead: Option<int>, cacheWrite: Option<int>)

  function OrZero(n: Option<int>): int {
    if n.Some? then n.value else 0
  }

  function ToUsage(c: Counts): Usage {
    var prompt := c.input + OrZero(c.cacheRead) + OrZero(c.cacheWrite);
    Usage(prompt, OrZero(c.output), prompt + OrZero(c.output), c.cacheRead, c.cacheWrite)
  }

  datatype Completion = Completion(message: M.Message, stop: string, usage: Option<Usage>)

  const StopToolUse := "tool_use"
  const StopEndTurn := "end_turn"

  function Assistant(parts: seq<M.Part>): M.Message {
    M.Synced(M.Message(M.Assistant, "", "", parts, "", [], [], "", false))
  }

  // --- the whole response

  function BlockPart(b: Block): seq<M.Part> {
    match b
    case Text(t) => [M.Text(t)]
    case Thinking(t, signature) => [M.Thinking(t, signature, "", false)]
    case Redacted(data) => [M.Redacted(data)]
    case ToolUse(id, name, input) => [M.Call(id, name, M.ToolArgs(input))]
    case Unknown(_, _) => []
  }

  function Whole(blocks: seq<Block>, stop: string, counts: Option<Counts>): Completion {
    var message := Assistant(FlatMap(BlockPart, blocks));
    Completion(message, if stop != "" then stop else if |message.toolCalls| > 0 then StopToolUse else StopEndTurn,
               if counts.Some? then Some(ToUsage(counts.value)) else None)
  }

  method ParseNonStream(blocks: seq<Block>, stop: string, counts: Option<Counts>) returns (comp: Completion)
    ensures TellsOf(comp, blocks, stop, counts) && comp == Whole(blocks, stop, counts)
  {
    var parts: seq<M.Part> := [];
    for i := 0 to |blocks|
      invariant parts == FlatMap(BlockPart, blocks[..i])
    {
      FlatMapStep(BlockPart, blocks, i);
      match blocks[i]
      case Text(t) => parts := parts + [M.Text(t)];
      case Thinking(t, signature) => parts := parts + [M.Thinking(t, signature, "", false)];
      case Redacted(data) => parts := parts + [M.Redacted(data)];
      case ToolUse(id, name, input) => parts := parts + [M.Call(id, name, M.ToolArgs(input))];
      case Unknown(_, _) =>
    }
    assert blocks[..|blocks|] == blocks;
    var message := M.SyncViews(M.Message(M.Assistant, "", "", parts, "", [], [], "", false));
    var reason := stop;
    if reason == "" {
      reason := if |message.toolCalls| > 0 then StopToolUse else StopEndTurn;
    }
    comp := Completion(message, reason, if counts.Some? then Some(ToUsage(counts.value)) else None);
    WholeTells(blocks, stop, counts);
  }

  // --- the stream

  datatype Event =
    | MessageStart(counts: Option<Counts>)
    | BlockStart(index: int, block: Block)
    | TextDelta(index: int, text: string)
    | ThinkingDelta(index: int, thought: string)
    | SignatureDelta(index: int, signature: string)
    | JsonDelta(index: int, json: string)
    | BlockStop(index: int)
    | MessageDelta(stop: string, output: Option<int>)
    | Ping

  /** The node a block starts as, with what its announcement already holds. */
  function NodeOf(b: Block): Body {
    match b
    case Text(t) => AssistantBody(StreamStrings.Apply(StreamStrings.Empty, StreamStrings.Append(t)))
    case Thinking(t, signature) =>
      ThinkingBody(StreamStrings.Apply(StreamStrings.Empty, StreamStrings.Append(t)), signature, "", "", "", "", false, Dialect.Anthropic)
    case Redacted(data) => ThinkingBody(Finished(""), "", "", data, "", "", false, Dialect.Anthropic)
    case ToolUse(id, name, _) => ToolCallBody(id, name, StreamStrings.Empty)
    case Unknown(kind, json) => RawBlockBody(kind, json)
  }

  /** `blocks` finds the node of a block index. */
  datatype State = State(blocks: map<int, nat>, nodes: seq<Body>, stop: string, counts: Option<Counts>)

  const NoEvents := State(map[], [], "", None)

  function Announce(st: State, index: int, b: Body): State {
    st.(blocks := st.blocks[index := |st.nodes|], nodes := st.nodes + [b])
  }

  /** Text for an index with no block yet opens a block there. */
  function Ensured(st: State, index: int, b: Body): State {
    if index in st.blocks then st else Announce(st, index, b)
  }

  function At(st: State, index: int): Option<nat> {
    if index in st.blocks && st.blocks[index] < |st.nodes| then Some(st.blocks[index]) else None
  }

  function Put(st: State, index: int, b: Body): State {
    match At(st, index)
    case Some(k) => st.(nodes := st.nodes[k := b])
    case None => st
  }

  function Grow(st: State, index: int, arguments: bool, text: string): State {
    match At(st, index)
    case Some(k) => Put(st, index, Extended(st.nodes[k], arguments, text))
    case None => st
  }

  function Next(st: State, e: Event): State {
    match e
    case MessageStart(counts) =>
      if counts.Some? then st.(counts := Some(counts.value.(output := Some(if counts.value.output.Some? then counts.value.output.value else CountedOutput(st))))) else st
    case BlockStart(index, b) =>
      var closed := match At(st, index)
                    case Some(k) => Put(st, index, Closed(st.nodes[k]))
                    case None => st;
      Announce(closed, index, NodeOf(b))
    case TextDelta(index, t) => Grow(Ensured(st, index, NodeOf(Text(""))), index, false, t)
    case ThinkingDelta(index, t) => Grow(Ensured(st, index, NodeOf(Thinking("", ""))), index, false, t)
    case SignatureDelta(index, signature) =>
      (match At(st, index)
       case Some(k) => if st.nodes[k].ThinkingBody? && signature != "" then Put(st, index, st.nodes[k].(signature := signature)) else st
       case None => st)
    case JsonDelta(index, json) =>
      (match At(st, index)
       case Some(k) => if st.nodes[k].ToolCallBody? then Grow(st, index, true, json) else st
       case None => st)
    case BlockStop(index) =>
      (match At(st, index)
       case Some(k) => Put(st, index, Closed(st.nodes[k]))
       case None => st)
    case MessageDelta(stop, output) =>
      var t := if stop != "" then st.(stop := stop) else st;
      if output.Some? then
        t.(counts := Some((if t.counts.Some? then t.counts.value else Counts(0, None, None, None)).(output := output)))
      else t
    case Ping => st
  }

  function CountedOutput(st: State): int {
    if st.counts.Some? then OrZero(st.counts.value.output) else 0
  }

  function Play(st: State, es: seq<Event>): State {
    if es == [] then st else Next(Play(st, es[..|es| - 1]), es[|es| - 1])
  }

  function HasCall(nodes: seq<Body>): bool {
    exists k :: 0 <= k < |nodes| && nodes[k].ToolCallBody?
  }

  /** What is there so far, a stream that was cut included. */
  function Completed(st: State): Completion {
    Completion(Assistant(FlatMap(PartOfBody, AllClosed(st.nodes))),
               if st.stop != "" then st.stop else if HasCall(st.nodes) then StopToolUse else StopEndTurn,
               if st.counts.Some? then Some(ToUsage(st.counts.value)) else None)
  }

  class AnStream {
    var blocks: map<int, nat>
    var nodes: seq<Body>
    var stop: string
    var inputTokens: int
    var outputTokens: int
    var cacheRead: Option<int>
    var cacheWrite: Option<int>
    var haveUsage: bool

    function Now(): State
      reads this
    {
      State(blocks, nodes, stop, if haveUsage then Some(Counts(inputTokens, Some(outputTokens), cacheRead, cacheWrite)) else None)
    }

    predicate Valid()
      reads this
    {
      && (forall i :: i in blocks ==> blocks[i] < |nodes|)
      && (!haveUsage ==> inputTokens == 0 && outputTokens == 0 && cacheRead.None? && cacheWrite.None?)
    }

    constructor ()
      ensures Valid() && Now() == NoEvents
    {
      blocks, nodes, stop := map[], [], "";
      inputTokens, outputTokens, cacheRead, cacheWrite, haveUsage := 0, 0, None, None, false;
    }

    method StartNode(index: int, b: Body)
      requires Valid()
      modifies this
      ensures Valid() && Now() == Announce(old(Now()), index, b)
    {
      blocks := blocks[index := |nodes|];
      nodes := nodes + [b];
    }

    /** Changes the node of a block that is known. */
    method Rewrite(index: int, b: Body)
      requires Valid() && index in blocks
      modifies this
      ensures Valid() && Now() == Put(old(Now()), index, b) && blocks == old(blocks)
    {
      nodes := nodes[blocks[index] := b];
    }

    method OnText(index: int, b: Block, text: string)
      requires Valid()
      modifies this
      ensures Valid() && Now() == Grow(Ensured(old(Now()), index, NodeOf(b)), index, false, text)
    {
      hide Extended, NodeOf;
      if index !in blocks {
        StartNode(index, NodeOf(b));
      }
      Rewrite(index, Extended(nodes[blocks[index]], false, text));
    }

    method OnBlock(e: Event)
      requires Valid() && (e.BlockStart? || e.SignatureDelta? || e.JsonDelta? || e.BlockStop?)
      modifies this
      ensures Valid() && Now() == Next(old(Now()), e)
    {
      hide Extended, Closed, NodeOf, ToUsage;
      if e.BlockStart? {
        if e.index in blocks {
          Rewrite(e.index, Closed(nodes[blocks[e.index]]));
        }
        StartNode(e.index, NodeOf(e.block));
      } else if e.index in blocks {
        var n := nodes[blocks[e.index]];
        if e.SignatureDelta? {
          if n.ThinkingBody? && e.signature != "" {
            Rewrite(e.index, n.(signature := e.signature));
          }
        } else if e.JsonDelta? {
          if n.ToolCallBody? {
            Rewrite(e.index, Extended(n, true, e.json));
          }
        } else {
          Rewrite(e.index, Closed(n));
        }
      }
    }

    method OnEvent(e: Event)
      requires Valid()
      modifies this
      ensures Valid() && Now() == Next(old(Now()), e)
    {
      hide Extended, Closed, NodeOf, Put, Grow;
      match e {
        case MessageStart(counts) =>
          if counts.Some? {
            haveUsage := true;
            inputTokens := counts.value.input;
            cacheRead, cacheWrite := counts.value.cacheRead, counts.value.cacheWrite;
            if counts.value.output.Some? {
              outputTokens := counts.value.output.value;
            }
          }
        case TextDelta(index, t) => OnText(index, Text(""), t);
        case ThinkingDelta(index, t) => OnText(index, Thinking("", ""), t);
        case MessageDelta(reason, output) =>
          if reason != "" {
            stop := reason;
          }
          if output.Some? {
            haveUsage := true;
            outputTokens := output.value;
          }
        case Ping =>
        case _ => OnBlock(e);
      }
    }

    method Complete() returns (comp: Completion)
      requires Valid()
      ensures comp == Completed(Now())
    {
      hide Closed;
      var haveCall := false;
      for i := 0 to |nodes|
        invariant haveCall == HasCall(nodes[..i])
      {
        assert nodes[..i + 1] == nodes[..i] + [nodes[i]];
        HasCallMore(nodes[..i], nodes[i]);
        if nodes[i].ToolCallBody? {
          haveCall := true;
        }
      }
      assert nodes[..|nodes|] == nodes;
      var reason := stop;
      if reason == "" {
        reason := if haveCall then StopToolUse else StopEndTurn;
      }
      comp := Completion(Assistant(FlatMap(PartOfBody, AllClosed(nodes))), reason,
                         if haveUsage then Some(ToUsage(Counts(inputTokens, Some(outputTokens), cacheRead, cacheWrite))) else None);
    }
  }

  lemma HasCallMore(nodes: seq<Body>, b: Body)
    ensures HasCall(nodes + [b]) <==> HasCall(nodes) || b.ToolCallBody?
  {
    var more := nodes + [b];
    if HasCall(nodes) {
      var k :| 0 <= k < |nodes| && nodes[k].ToolCallBody?;
      assert more[k].ToolCallBody?;
    }
    if b.ToolCallBody? {
      assert more[|nodes|].ToolCallBody?;
    }
  }

  // --- both come to the same

  /** What a delta adds to the block of this index: text, reasoning or arguments. */
  function Added(e: Event, index: int): string {
    match e
    case TextDelta(i, t) => if i == index then t else ""
    case ThinkingDelta(i, t) => if i == index then t else ""
    case JsonDelta(i, t) => if i == index then t else ""
    case _ => ""
  }

  /** All that arrives for a block, whatever arrives for others in between. */
  function Arrived(es: seq<Event>, index: int): string {
    if es == [] then "" else Arrived(es[..|es| - 1], index) + Added(es[|es| - 1], index)
  }

  /** The last signature that arrives for a block; a delta carries the whole of it. */
  function Signed(es: seq<Event>, index: int, first: string): string {
    if es == [] then first
    else
      var e := es[|es| - 1];
      if e.SignatureDelta? && e.index == index && e.signature != "" then e.signature else Signed(es[..|es| - 1], index, first)
  }

  /** The blocks announced, in the order they began. */
  function Announced(es: seq<Event>): seq<(int, Block)> {
    if es == [] then []
    else Announced(es[..|es| - 1]) + if es[|es| - 1].BlockStart? then [(es[|es| - 1].index, es[|es| - 1].block)] else []
  }

  predicate Knows(bs: seq<(int, Block)>, index: int) {
    exists k :: 0 <= k < |bs| && bs[k].0 == index
  }

  /** The event suits what was announced: a block begins once, with no deltas before, and gets deltas of its own kind
      until it stops. */
  predicate Suits(es: seq<Event>, e: Event) {
    var bs := Announced(es);
    match e
    case BlockStart(index, b) => !Knows(bs, index) && (b.ToolUse? ==> b.input == "")
    case TextDelta(index, _) => Open(es, index) && Of(bs, index).Text?
    case ThinkingDelta(index, _) => Open(es, index) && Of(bs, index).Thinking?
    case SignatureDelta(index, _) => Open(es, index) && Of(bs, index).Thinking?
    case JsonDelta(index, _) => Open(es, index) && Of(bs, index).ToolUse?
    case _ => true
  }

  predicate Open(es: seq<Event>, index: int) {
    Knows(Announced(es), index) && !Stopped(es, index)
  }

  predicate Stopped(es: seq<Event>, index: int) {
    exists k :: 0 <= k < |es| && es[k] == BlockStop(index)
  }

  /** The block announced under this index. */
  function Of(bs: seq<(int, Block)>, index: int): Block {
    if bs == [] then Unknown("", "") else if bs[|bs| - 1].0 == index then bs[|bs| - 1].1 else Of(bs[..|bs| - 1], index)
  }

  predicate WellFormed(es: seq<Event>) {
    forall n :: 0 <= n < |es| ==> Suits(es[..n], es[n])
  }

  /** A block with everything that arrived for it. */
  function Filled(es: seq<Event>, index: int, b: Block): Block {
    match b
    case Text(t) => Text(t + Arrived(es, index))
    case Thinking(t, signature) => Thinking(t + Arrived(es, index), Signed(es, index, signature))
    case ToolUse(id, name, _) => ToolUse(id, name, Arrived(es, index))
    case _ => b
  }

  function FilledAll(es: seq<Event>, bs: seq<(int, Block)>): (blocks: seq<Block>)
    ensures |blocks| == |bs|
    ensures forall k :: 0 <= k < |bs| ==> blocks[k] == Filled(es, bs[k].0, bs[k].1)
  {
    if bs == [] then [] else FilledAll(es, bs[..|bs| - 1]) + [Filled(es, bs[|bs| - 1].0, bs[|bs| - 1].1)]
  }

  /** The blocks a stream carried. */
  function Carried(es: seq<Event>): seq<Block> {
    FilledAll(es, Announced(es))
  }

  /** The node holds the block. */
  predicate Holds(n: Body, b: Block) {
    match b
    case Text(t) => n.AssistantBody? && n.text.Current() == t
    case Thinking(t, signature) =>
      n.ThinkingBody? && n == ThinkingBody(n.thought, signature, "", "", "", "", false, Dialect.Anthropic) && n.thought.Current() == t
    case Redacted(data) => n == ThinkingBody(Finished(""), "", "", data, "", "", false, Dialect.Anthropic)
    case ToolUse(id, name, input) => n.ToolCallBody? && n.callId == id && n.name == name && n.arguments.Current() == input
    case Unknown(kind, json) => n == RawBlockBody(kind, json)
  }

  /** Every announced block has its node, in order, and the node holds what arrived. */
  ghost predicate InStep(es: seq<Event>, st: State) {
    var bs := Announced(es);
    && |st.nodes| == |bs|
    && (forall i :: i in st.blocks <==> Knows(bs, i))
    && (forall k :: 0 <= k < |bs| ==> bs[k].0 in st.blocks && st.blocks[bs[k].0] == k)
    && (forall k :: 0 <= k < |bs| ==> IsFilled(es, bs[k], st.nodes[k]))
  }

  /** The node of a block holds what arrived for it, and takes more while the block is not stopped. */
  ghost predicate IsFilled(es: seq<Event>, b: (int, Block), n: Body) {
    Holds(n, Filled(es, b.0, b.1)) && (!Stopped(es, b.0) && !b.1.Redacted? ==> Writable(n))
  }

  /** An event for another block leaves it so. */
  lemma {:induction false} FilledStays(es: seq<Event>, e: Event, b: (int, Block), n: Body)
    requires IsFilled(es, b, n) && !Concerns(e, b.0)
    ensures IsFilled(es + [e], b, n)
  {
    hide Filled, Holds, Writable, Stopped, Concerns;
    FilledSame(es, e, b.0, b.1);
    StoppedSnoc(es, e, b.0);
  }

  predicate Writable(n: Body) {
    match StateCheck.FieldOf(n)
    case Some(f) => !f.done
    case None => true
  }

  /** Nothing came for a block that is not announced. */
  ghost predicate Silent(es: seq<Event>) {
    forall i :: !Knows(Announced(es), i) ==> Arrived(es, i) == "" && (forall first :: Signed(es, i, first) == first)
  }

  lemma Snoc(es: seq<Event>, e: Event, i: int, first: string)
    ensures Announced(es + [e]) == Announced(es) + if e.BlockStart? then [(e.index, e.block)] else []
    ensures Arrived(es + [e], i) == Arrived(es, i) + Added(e, i)
    ensures Signed(es + [e], i, first) == if e.SignatureDelta? && e.index == i && e.signature != "" then e.signature else Signed(es, i, first)
  {
    assert (es + [e])[..|es|] == es;
  }

  lemma StoppedSnoc(es: seq<Event>, e: Event, i: int)
    ensures Stopped(es + [e], i) <==> Stopped(es, i) || e == BlockStop(i)
  {
    var more := es + [e];
    if Stopped(es, i) {
      var k :| 0 <= k < |es| && es[k] == BlockStop(i);
      assert more[k] == BlockStop(i);
    }
    assert more[|es|] == e;
  }

  lemma KnowsMore(bs: seq<(int, Block)>, b: (int, Block), i: int)
    ensures Knows(bs + [b], i) <==> Knows(bs, i) || b.0 == i
  {
    var more := bs + [b];
    if Knows(bs, i) {
      var k :| 0 <= k < |bs| && bs[k].0 == i;
      assert more[k].0 == i;
    }
    assert more[|bs|] == b;
  }

  /** Whether the event says anything about the block of index i. */
  predicate Concerns(e: Event, i: int) {
    (e.TextDelta? || e.ThinkingDelta? || e.JsonDelta? || e.SignatureDelta?) && e.index == i
  }

  lemma FilledSame(es: seq<Event>, e: Event, i: int, b: Block)
    requires !Concerns(e, i)
    ensures Filled(es + [e], i, b) == Filled(es, i, b)
  {
    Snoc(es, e, i, if b.Thinking? then b.signature else "");
    assert Arrived(es, i) + "" == Arrived(es, i);
  }

  lemma SilentMore(es: seq<Event>, e: Event)
    requires Silent(es) && Suits(es, e)
    ensures Silent(es + [e])
  {
    hide Announced, Arrived, Signed;
    forall i | !Knows(Announced(es + [e]), i) ensures Arrived(es + [e], i) == "" && forall first :: Signed(es + [e], i, first) == first {
      Snoc(es, e, i, "");
      if e.BlockStart? {
        KnowsMore(Announced(es), (e.index, e.block), i);
      } else {
        assert Announced(es) + [] == Announced(es);
      }
      assert !Concerns(e, i);
      forall first ensures Signed(es + [e], i, first) == first {
        Snoc(es, e, i, first);
      }
    }
  }

  lemma {:induction false} OfAt(bs: seq<(int, Block)>, k: nat)
    requires k < |bs| && forall j :: k < j < |bs| ==> bs[j].0 != bs[k].0
    ensures Of(bs, bs[k].0) == bs[k].1
  {
    if k < |bs| - 1 {
      OfAt(bs[..|bs| - 1], k);
    }
  }

  /** More text for a node that takes it. */
  lemma HoldsMore(n: Body, b: Block, more: Block, arguments: bool, t: string)
    requires Holds(n, b) && Writable(n)
    requires (b.Text? && !arguments && more == Text(b.text + t)) || (b.Thinking? && !arguments && more == b.(thought := b.thought + t))
             || (b.ToolUse? && arguments && more == b.(input := b.input + t))
    ensures Holds(Extended(n, arguments, t), more) && Writable(Extended(n, arguments, t))
  {
    assert t == "" ==> (match b case Text(x) => x + t == x case Thinking(x, _) => x + t == x case ToolUse(_, _, x) => x + t == x case _ => true);
  }

  lemma HoldsClosed(n: Body, b: Block)
    requires Holds(n, b)
    ensures Holds(Closed(n), b)
  {
  }

  /** One node changes to hold what its block holds now; the others stay. */
  lemma {:induction false} PutInStep(es: seq<Event>, st: State, e: Event, k: nat, n: Body)
    requires InStep(es, st) && k < |st.nodes| && !e.BlockStart?
    requires forall i :: Concerns(e, i) ==> i == Announced(es)[k].0
    requires Holds(n, Filled(es + [e], Announced(es)[k].0, Announced(es)[k].1))
    requires !Stopped(es + [e], Announced(es)[k].0) && !Announced(es)[k].1.Redacted? ==> Writable(n)
    ensures InStep(es + [e], st.(nodes := st.nodes[k := n]))
  {
    hide Announced, Filled, Holds, Writable, Stopped, Knows, Concerns;
    var bs, nodes := Announced(es), st.nodes[k := n];
    SameAnnounced(es, e);
    assert IsFilled(es + [e], bs[k], n);
    hide IsFilled;
    forall j | 0 <= j < |bs| ensures IsFilled(es + [e], bs[j], nodes[j]) {
      if j != k {
        assert st.blocks[bs[j].0] == j && st.blocks[bs[k].0] == k;
        FilledStays(es, e, bs[j], nodes[j]);
      }
    }
  }

  lemma SameAnnounced(es: seq<Event>, e: Event)
    requires !e.BlockStart?
    ensures Announced(es + [e]) == Announced(es)
  {
    hide Announced;
    Snoc(es, e, 0, "");
    assert Announced(es) + [] == Announced(es);
  }

  /** An event that concerns no block changes no node. */
  lemma {:induction false} SameInStep(es: seq<Event>, st: State, e: Event, after: State)
    requires InStep(es, st) && !e.BlockStart? && (forall i :: !Concerns(e, i)) && after.nodes == st.nodes && after.blocks == st.blocks
    ensures InStep(es + [e], after)
  {
    hide Announced, IsFilled, Knows, Concerns;
    var bs := Announced(es);
    SameAnnounced(es, e);
    forall j | 0 <= j < |bs| ensures IsFilled(es + [e], bs[j], st.nodes[j]) {
      FilledStays(es, e, bs[j], st.nodes[j]);
    }
  }

  lemma StartHolds(es: seq<Event>, e: Event)
    requires e.BlockStart? && (e.block.ToolUse? ==> e.block.input == "")
    requires Arrived(es, e.index) == "" && forall first :: Signed(es, e.index, first) == first
    ensures Holds(NodeOf(e.block), Filled(es + [e], e.index, e.block)) && (!e.block.Redacted? ==> Writable(NodeOf(e.block)))
  {
    FilledSame(es, e, e.index, e.block);
    assert e.block.Text? ==> e.block.text + "" == e.block.text;
    assert e.block.Thinking? ==> e.block.thought + "" == e.block.thought;
  }

  /** A block that begins gets a node of its own, the last. */
  lemma {:induction false} StartAdds(es: seq<Event>, st: State, e: Event)
    requires InStep(es, st) && Suits(es, e) && e.BlockStart?
    ensures Announced(es + [e]) == Announced(es) + [(e.index, e.block)] && e.index !in st.blocks
    ensures Next(st, e).nodes == st.nodes + [NodeOf(e.block)] && Next(st, e).blocks == st.blocks[e.index := |st.nodes|]
  {
    hide Announced, IsFilled, NodeOf, Knows;
    Snoc(es, e, 0, "");
  }

  lemma {:induction false} StartKnows(bs: seq<(int, Block)>, b: (int, Block), blocks: map<int, nat>, last: nat)
    requires forall i :: i in blocks <==> Knows(bs, i)
    ensures forall i :: i in blocks[b.0 := last] <==> Knows(bs + [b], i)
  {
    hide Knows;
    forall i ensures i in blocks[b.0 := last] <==> Knows(bs + [b], i) {
      KnowsMore(bs, b, i);
    }
  }

  lemma {:induction false} StartFills(es: seq<Event>, st: State, e: Event)
    requires Silent(es) && Suits(es, e) && e.BlockStart?
    ensures IsFilled(es + [e], (e.index, e.block), NodeOf(e.block))
  {
    hide Announced, Filled, Holds, Writable, Stopped, NodeOf, Knows, Arrived, Signed;
    StartHolds(es, e);
  }

  lemma {:induction false} StartInStep(es: seq<Event>, st: State, e: Event)
    requires InStep(es, st) && Silent(es) && Suits(es, e) && e.BlockStart?
    ensures InStep(es + [e], Next(st, e))
  {
    hide Announced, IsFilled, Suits, Next, NodeOf, Knows, Silent, Concerns;
    var bs := Announced(es);
    StartAdds(es, st, e);
    StartKnows(bs, (e.index, e.block), st.blocks, |bs|);
    StartFills(es, st, e);
    forall j | 0 <= j < |bs| ensures bs[j].0 != e.index && IsFilled(es + [e], bs[j], st.nodes[j]) {
      assert bs[j].0 in st.blocks;
      StartElsewhere(e, bs[j].0);
      FilledStays(es, e, bs[j], st.nodes[j]);
    }
  }

  lemma StartElsewhere(e: Event, i: int)
    requires e.BlockStart?
    ensures !Concerns(e, i)
  {
  }

  lemma DeltaInStep(es: seq<Event>, st: State, e: Event, arguments: bool, t: string)
    requires InStep(es, st) && Suits(es, e)
    requires (e.TextDelta? && !arguments && t == e.text) || (e.ThinkingDelta? && !arguments && t == e.thought) || (e.JsonDelta? && arguments && t == e.json)
    ensures InStep(es + [e], Next(st, e))
  {
    hide Announced, Holds, Writable, Extended, Arrived, Signed, Of, Knows;
    var bs := Announced(es);
    var k := PlaceOf(es, st, e.index);
    var b := bs[k].1;
    Snoc(es, e, e.index, if b.Thinking? then b.signature else "");
    var was, now := Filled(es, e.index, b), Filled(es + [e], e.index, b);
    assert b.Text? ==> b.text + (Arrived(es, e.index) + t) == b.text + Arrived(es, e.index) + t;
    assert b.Thinking? ==> b.thought + (Arrived(es, e.index) + t) == b.thought + Arrived(es, e.index) + t;
    HoldsMore(st.nodes[k], was, now, arguments, t);
    HoldsKind(st.nodes[k], was);
    PutInStep(es, st, e, k, Extended(st.nodes[k], arguments, t));
  }

  lemma HoldsKind(n: Body, b: Block)
    requires Holds(n, b)
    ensures (b.Text? ==> n.AssistantBody?) && (b.Thinking? ==> n.ThinkingBody?) && (b.ToolUse? ==> n.ToolCallBody?)
  {
  }

  lemma HoldsSigned(n: Body, b: Block, signature: string)
    requires Holds(n, b) && b.Thinking?
    ensures n.ThinkingBody? && Holds(n.(signature := signature), b.(signature := signature))
    ensures Writable(n) ==> Writable(n.(signature := signature))
  {
  }

  /** Where the block of a known index is. */
  lemma PlaceOf(es: seq<Event>, st: State, index: int) returns (k: nat)
    requires InStep(es, st) && Knows(Announced(es), index)
    ensures k < |st.nodes| == |Announced(es)| && Announced(es)[k].0 == index && index in st.blocks && st.blocks[index] == k
    ensures Of(Announced(es), index) == Announced(es)[k].1
  {
    hide Announced, Holds, Writable, Filled, Stopped;
    var bs := Announced(es);
    k := st.blocks[index];
    var j :| 0 <= j < |bs| && bs[j].0 == index;
    assert j == k;
    forall m | k < m < |bs| ensures bs[m].0 != bs[k].0 {
      assert st.blocks[bs[m].0] == m;
    }
    OfAt(bs, k);
  }

  lemma SignatureInStep(es: seq<Event>, st: State, e: Event)
    requires InStep(es, st) && Suits(es, e) && e.SignatureDelta?
    ensures InStep(es + [e], Next(st, e))
  {
    hide Announced, Arrived, Signed, Holds, Writable, Knows, Of;
    var k := PlaceOf(es, st, e.index);
    var b := Announced(es)[k].1;
    Snoc(es, e, e.index, b.signature);
    assert Arrived(es, e.index) + "" == Arrived(es, e.index);
    var n := st.nodes[k];
    HoldsSigned(n, Filled(es, e.index, b), e.signature);
    PutInStep(es, st, e, k, if e.signature != "" then n.(signature := e.signature) else n);
    assert st.nodes[k := n] == st.nodes;
  }

  lemma StopInStep(es: seq<Event>, st: State, e: Event)
    requires InStep(es, st) && e.BlockStop?
    ensures InStep(es + [e], Next(st, e))
  {
    hide Announced, Holds, Writable, Closed, Filled, Stopped;
    if e.index in st.blocks {
      var bs := Announced(es);
      var k := st.blocks[e.index];
      var j :| 0 <= j < |bs| && bs[j].0 == e.index;
      assert j == k;
      FilledSame(es, e, e.index, bs[k].1);
      HoldsClosed(st.nodes[k], Filled(es, e.index, bs[k].1));
      StoppedSnoc(es, e, e.index);
      PutInStep(es, st, e, k, Closed(st.nodes[k]));
    } else {
      SameInStep(es, st, e, st);
    }
  }

  lemma NextInStep(es: seq<Event>, st: State, e: Event)
    requires InStep(es, st) && Silent(es) && Suits(es, e)
    ensures InStep(es + [e], Next(st, e))
  {
    hide InStep, Silent, Suits;
    match e
    case BlockStart(_, _) => StartInStep(es, st, e);
    case TextDelta(_, t) => DeltaInStep(es, st, e, false, t);
    case ThinkingDelta(_, t) => DeltaInStep(es, st, e, false, t);
    case JsonDelta(_, t) => DeltaInStep(es, st, e, true, t);
    case SignatureDelta(_, _) => SignatureInStep(es, st, e);
    case BlockStop(_) => StopInStep(es, st, e);
    case _ => SameInStep(es, st, e, Next(st, e));
  }

  lemma WellFormedFront(es: seq<Event>)
    requires WellFormed(es) && es != []
    ensures WellFormed(es[..|es| - 1]) && Suits(es[..|es| - 1], es[|es| - 1])
  {
    var init := es[..|es| - 1];
    forall n | 0 <= n < |init| ensures Suits(init[..n], init[n]) {
      assert init[..n] == es[..n];
    }
  }

  lemma PlaySnoc(es: seq<Event>, e: Event)
    ensures Play(NoEvents, es + [e]) == Next(Play(NoEvents, es), e)
  {
    hide Next;
    assert (es + [e])[..|es|] == es;
  }

  lemma NothingInStep()
    ensures Play(NoEvents, []) == NoEvents && InStep([], NoEvents) && Silent([])
  {
    assert FilledAll([], []) == [] && Announced([]) == [];
  }

  /** After any prefix of a stream, however its deltas interleave, each block holds exactly what arrived for it. */
  lemma {:induction false} StreamInStep(es: seq<Event>)
    requires WellFormed(es)
    ensures InStep(es, Play(NoEvents, es)) && Silent(es)
  {
    hide InStep, Silent, Suits, WellFormed, Next, Play;
    if es == [] {
      NothingInStep();
    } else {
      WellFormedFront(es);
      var init, e := es[..|es| - 1], es[|es| - 1];
      PlaySnoc(init, e);
      StreamInStep(init);
      NextInStep(init, Play(NoEvents, init), e);
      SilentMore(init, e);
      assert init + [e] == es;
    }
  }

  // --- what a reader of the two turns can tell

  /** The part a streamed block becomes. */
  function StreamPart(b: Block): seq<M.Part> {
    match b
    case Text(t) => if t != "" then [M.Text(t)] else []
    case Redacted(data) => if data != "" then [M.Redacted(data)] else [M.Thinking("", "", "", false)]
    case _ => BlockPart(b)
  }

  lemma HoldsPart(n: Body, b: Block)
    requires Holds(n, b)
    ensures PartOfBody(Closed(n)) == StreamPart(b) && (n.ToolCallBody? <==> b.ToolUse?)
  {
    HoldsClosed(n, b);
  }

  lemma {:induction false} PartsOfNodes(nodes: seq<Body>, blocks: seq<Block>)
    requires |nodes| == |blocks| && forall k :: 0 <= k < |nodes| ==> Holds(nodes[k], blocks[k])
    ensures FlatMap(PartOfBody, AllClosed(nodes)) == FlatMap(StreamPart, blocks)
  {
    if nodes != [] {
      hide Holds, PartOfBody, StreamPart, Closed;
      var k := |nodes| - 1;
      PartsOfNodes(nodes[..k], blocks[..k]);
      HoldsPart(nodes[k], blocks[k]);
      assert AllClosed(nodes)[..k] == AllClosed(nodes[..k]);
    }
  }

  /** A block whose part does not depend on how it came: a text that is not empty, a payload that is not empty. */
  predicate Plain(b: Block) {
    (b.Text? ==> b.text != "") && (b.Redacted? ==> b.data != "")
  }

  predicate AllPlain(blocks: seq<Block>) {
    forall k :: 0 <= k < |blocks| ==> Plain(blocks[k])
  }

  lemma PartLengths(b: Block)
    ensures |StreamPart(b)| <= |BlockPart(b)| && (StreamPart(b) == BlockPart(b) <==> Plain(b))
    ensures |StreamPart(b)| < |BlockPart(b)| <==> b == Text("")
  {
  }

  lemma {:induction false} PartsLengths(blocks: seq<Block>)
    ensures |FlatMap(StreamPart, blocks)| <= |FlatMap(BlockPart, blocks)|
  {
    if blocks != [] {
      hide StreamPart, BlockPart;
      PartsLengths(blocks[..|blocks| - 1]);
      PartLengths(blocks[|blocks| - 1]);
    }
  }

  lemma SplitEnds<T>(a: seq<T>, b: seq<T>, c: seq<T>, d: seq<T>)
    requires |a| <= |c| && |b| <= |d|
    ensures a + b == c + d <==> a == c && b == d
  {
    if a + b == c + d {
      assert |a| == |c|;
      assert a == (a + b)[..|a|] && c == (c + d)[..|a|] && b == (a + b)[|a|..] && d == (c + d)[|a|..];
    }
  }

  lemma {:induction false} PartsAgree(blocks: seq<Block>)
    ensures FlatMap(StreamPart, blocks) == FlatMap(BlockPart, blocks) <==> AllPlain(blocks)
  {
    if blocks != [] {
      hide StreamPart, BlockPart, Plain;
      var init, b := blocks[..|blocks| - 1], blocks[|blocks| - 1];
      PartsAgree(init);
      PartLengths(b);
      PartsLengths(init);
      SplitEnds(FlatMap(StreamPart, init), StreamPart(b), FlatMap(BlockPart, init), BlockPart(b));
      assert AllPlain(blocks) <==> AllPlain(init) && Plain(b) by {
        assert blocks == init + [b];
      }
    }
  }

  lemma SyncedParts(ps: seq<M.Part>)
    ensures Assistant(ps).parts == ps && Assistant(ps).toolCalls == FlatMap(M.ToolCallOf, ps)
  {
  }

  lemma BlockCalls(b: Block)
    ensures FlatMap(M.ToolCallOf, BlockPart(b)) != [] <==> b.ToolUse?
  {
    if BlockPart(b) != [] {
      assert BlockPart(b) == [BlockPart(b)[0]];
      FlatMapOne(M.ToolCallOf, BlockPart(b)[0]);
    }
  }

  lemma CallsOfLast(init: seq<Block>, b: Block)
    ensures FlatMap(M.ToolCallOf, FlatMap(BlockPart, init + [b])) != []
            <==> FlatMap(M.ToolCallOf, FlatMap(BlockPart, init)) != [] || b.ToolUse?
  {
    hide FlatMap, BlockPart, M.ToolCallOf;
    FlatMapSnoc(BlockPart, init, b);
    FlatMapConcat(M.ToolCallOf, FlatMap(BlockPart, init), BlockPart(b));
    BlockCalls(b);
  }

  predicate AnyToolUse(blocks: seq<Block>) {
    exists k :: 0 <= k < |blocks| && blocks[k].ToolUse?
  }

  lemma AnyOfLast(init: seq<Block>, b: Block)
    ensures AnyToolUse(init + [b]) <==> AnyToolUse(init) || b.ToolUse?
  {
    var blocks := init + [b];
    if k :| 0 <= k < |init| && init[k].ToolUse? {
      assert blocks[k].ToolUse?;
    }
    if b.ToolUse? {
      assert blocks[|init|].ToolUse?;
    }
  }

  lemma {:induction false} CallsOfBlocks(blocks: seq<Block>)
    ensures FlatMap(M.ToolCallOf, FlatMap(BlockPart, blocks)) != [] <==> AnyToolUse(blocks)
  {
    hide FlatMap, BlockPart, M.ToolCallOf;
    if blocks == [] {
      FlatMapNone(BlockPart);
      FlatMapNone(M.ToolCallOf);
    } else {
      hide AnyToolUse;
      var init, b := blocks[..|blocks| - 1], blocks[|blocks| - 1];
      CallsOfBlocks(init);
      CallsOfLast(init, b);
      AnyOfLast(init, b);
      assert init + [b] == blocks;
    }
  }

  lemma HasCallOfBlocks(nodes: seq<Body>, blocks: seq<Block>)
    requires |nodes| == |blocks| && forall k :: 0 <= k < |nodes| ==> Holds(nodes[k], blocks[k])
    ensures HasCall(nodes) <==> AnyToolUse(blocks)
  {
    hide Holds;
    forall k | 0 <= k < |nodes| ensures nodes[k].ToolCallBody? <==> blocks[k].ToolUse? {
      HoldsPart(nodes[k], blocks[k]);
    }
  }

  /** The stream and the whole response give the same turn exactly when no text block and no opaque payload is empty;
      stop reason and usage always agree. */
  lemma StreamIsWhole(es: seq<Event>)
    requires WellFormed(es)
    ensures var st := Play(NoEvents, es);
            var whole := Whole(Carried(es), st.stop, st.counts);
            && (Completed(st).message == whole.message <==> AllPlain(Carried(es)))
            && Completed(st).stop == whole.stop && Completed(st).usage == whole.usage
  {
    hide Holds, PartOfBody, StreamPart, BlockPart, AllClosed, FlatMap, Plain, M.Synced, Stopped, WellFormed, Writable;
    StreamInStep(es);
    var st, blocks := Play(NoEvents, es), Carried(es);
    PartsOfNodes(st.nodes, blocks);
    PartsAgree(blocks);
    SyncedParts(FlatMap(StreamPart, blocks));
    SyncedParts(FlatMap(BlockPart, blocks));
    CallsOfBlocks(blocks);
    HasCallOfBlocks(st.nodes, blocks);
  }

  lemma OneBlock(b: Block)
    requires b.Text? || b.Redacted?
    ensures WellFormed([BlockStart(0, b)]) && Carried([BlockStart(0, b)]) == [b]
  {
    var es := [BlockStart(0, b)];
    assert es[..0] == [];
    assert Announced([]) == [] && Arrived([], 0) == "";
    Snoc([], BlockStart(0, b), 0, "");
    assert [] + [BlockStart(0, b)] == es;
    assert Announced(es) == [(0, b)];
    assert Arrived(es, 0) == "";
    assert b.Text? ==> b.text + "" == b.text;
    assert Filled(es, 0, b) == b;
  }

  /** A block of empty text, or of an empty payload, makes another turn when it is streamed. */
  lemma EmptyBlocksDiffer(b: Block)
    requires b == Text("") || b == Redacted("")
    ensures var es := [BlockStart(0, b)];
            var st := Play(NoEvents, es);
            WellFormed(es) && Completed(st).message != Whole(Carried(es), st.stop, st.counts).message
  {
    hide WellFormed, Carried, Play, Completed, Whole;
    var es := [BlockStart(0, b)];
    OneBlock(b);
    StreamIsWhole(es);
    assert !Plain([b][0]);
  }

  // --- usage

  /** The counts the events report: what the start of the message says, and the last output count. */
  function LastOutput(es: seq<Event>): Option<int> {
    if es == [] then None
    else
      match es[|es| - 1]
      case MessageStart(counts) => if counts.Some? && counts.value.output.Some? then counts.value.output else LastOutput(es[..|es| - 1])
      case MessageDelta(_, output) => if output.Some? then output else LastOutput(es[..|es| - 1])
      case _ => LastOutput(es[..|es| - 1])
  }

  function LastStart(es: seq<Event>): Option<Counts> {
    if es == [] then None
    else if es[|es| - 1].MessageStart? && es[|es| - 1].counts.Some? then es[|es| - 1].counts
    else LastStart(es[..|es| - 1])
  }

  function StartCounts(start: Option<Counts>): Counts {
    if start.Some? then start.value else Counts(0, None, None, None)
  }

  /** The counts are those of the start, with this output. */
  predicate Tells(c: Option<Counts>, start: Option<Counts>, output: Option<int>) {
    && (c.None? <==> start.None? && output.None?)
    && (c.Some? ==>
          && c.value.input == StartCounts(start).input && OrZero(c.value.output) == OrZero(output)
          && c.value.cacheRead == StartCounts(start).cacheRead && c.value.cacheWrite == StartCounts(start).cacheWrite)
  }

  /** Output counts are snapshots, never sums: what is counted is the start's counts with the newest output. */
  lemma {:induction false} UsageIsSnapshot(es: seq<Event>)
    ensures Tells(Play(NoEvents, es).counts, LastStart(es), LastOutput(es))
    ensures Play(NoEvents, es).counts.Some? ==>
              ToUsage(Play(NoEvents, es).counts.value) == ToUsage(StartCounts(LastStart(es)).(output := LastOutput(es)))
  {
    if es != [] {
      hide Next, Tells, Play, ToUsage;
      var init, e := es[..|es| - 1], es[|es| - 1];
      UsageIsSnapshot(init);
      assert Play(NoEvents, es) == Next(Play(NoEvents, init), e) by {
        PlayLast(es);
      }
      CountsStep(Play(NoEvents, init), e, LastStart(init), LastOutput(init));
    }
    SameUsage(Play(NoEvents, es).counts, LastStart(es), LastOutput(es));
  }

  lemma PlayLast(es: seq<Event>)
    requires es != []
    ensures Play(NoEvents, es) == Next(Play(NoEvents, es[..|es| - 1]), es[|es| - 1])
  {
  }

  lemma SameUsage(c: Option<Counts>, start: Option<Counts>, output: Option<int>)
    requires Tells(c, start, output)
    ensures c.Some? ==> ToUsage(c.value) == ToUsage(StartCounts(start).(output := output))
  {
  }

  lemma CountsStep(st: State, e: Event, start: Option<Counts>, output: Option<int>)
    requires Tells(st.counts, start, output)
    ensures Tells(Next(st, e).counts,
                  if e.MessageStart? && e.counts.Some? then e.counts else start,
                  if e.MessageStart? && e.counts.Some? && e.counts.value.output.Some? then e.counts.value.output
                  else if e.MessageDelta? && e.output.Some? then e.output
                  else output)
  {
    if !e.MessageStart? && !e.MessageDelta? {
      CountsKept(st, e);
    }
  }

  lemma CountsKept(st: State, e: Event)
    requires !e.MessageStart? && !e.MessageDelta?
    ensures Next(st, e).counts == st.counts
  {
  }

  /** The usage of the counts of a start and an output count: cached tokens are part of the prompt. */
  predicate UsageSays(u: Usage, start: Counts, output: int) {
    && u.prompt == start.input + OrZero(start.cacheRead) + OrZero(start.cacheWrite) && u.completion == output && u.total == u.prompt + output
    && u.cacheRead == start.cacheRead && u.cacheWrite == start.cacheWrite
  }

  /** The usage is there exactly when the events report counts; the prompt is that of the newest start, the completion the
      newest output count. */
  lemma UsageFromEvents(es: seq<Event>)
    ensures var u := Completed(Play(NoEvents, es)).usage;
            && (u.Some? <==> LastStart(es).Some? || LastOutput(es).Some?)
            && (u.Some? ==> UsageSays(u.value, StartCounts(LastStart(es)), OrZero(LastOutput(es))))
  {
    hide Play, LastStart, LastOutput, Assistant, AllClosed, HasCall, FlatMap;
    UsageIsSnapshot(es);
  }

  // --- the stop reason

  /** The newest stop reason the events give. */
  function LastStop(es: seq<Event>): string {
    if es == [] then ""
    else
      var e := es[|es| - 1];
      if e.MessageDelta? && e.stop != "" then e.stop else LastStop(es[..|es| - 1])
  }

  /** A tool call was announced. */
  predicate Announces(es: seq<Event>) {
    exists k :: 0 <= k < |es| && es[k].BlockStart? && es[k].block.ToolUse?
  }

  lemma AnnouncesMore(es: seq<Event>, e: Event)
    ensures Announces(es + [e]) <==> Announces(es) || (e.BlockStart? && e.block.ToolUse?)
  {
    var more := es + [e];
    if k :| 0 <= k < |es| && es[k].BlockStart? && es[k].block.ToolUse? {
      assert more[k] == es[k];
    }
    assert more[|es|] == e;
  }

  /** The node at k changed, and is as much of a tool call as before. */
  lemma HasCallPut(nodes: seq<Body>, k: nat, b: Body)
    requires k < |nodes| && (b.ToolCallBody? <==> nodes[k].ToolCallBody?)
    ensures HasCall(nodes[k := b]) <==> HasCall(nodes)
  {
    var more := nodes[k := b];
    assert forall j :: 0 <= j < |nodes| ==> (more[j].ToolCallBody? <==> nodes[j].ToolCallBody?);
  }

  lemma KindsStay(b: Body, arguments: bool, t: string)
    ensures Closed(b).ToolCallBody? <==> b.ToolCallBody?
    ensures Extended(b, arguments, t).ToolCallBody? <==> b.ToolCallBody?
  {
  }

  lemma PutCalls(st: State, index: int, b: Body)
    requires At(st, index).Some? ==> (b.ToolCallBody? <==> st.nodes[At(st, index).value].ToolCallBody?)
    ensures HasCall(Put(st, index, b).nodes) <==> HasCall(st.nodes)
  {
    hide HasCall;
    if At(st, index).Some? {
      HasCallPut(st.nodes, At(st, index).value, b);
    }
  }

  lemma GrowCalls(st: State, index: int, arguments: bool, t: string)
    ensures HasCall(Grow(st, index, arguments, t).nodes) <==> HasCall(st.nodes)
  {
    hide HasCall, Extended, Put;
    if At(st, index).Some? {
      KindsStay(st.nodes[At(st, index).value], arguments, t);
      PutCalls(st, index, Extended(st.nodes[At(st, index).value], arguments, t));
    }
  }

  lemma EnsuredCalls(st: State, index: int, b: Body)
    requires !b.ToolCallBody?
    ensures HasCall(Ensured(st, index, b).nodes) <==> HasCall(st.nodes)
  {
    hide HasCall;
    HasCallMore(st.nodes, b);
  }

  lemma StartCalls(st: State, index: int, b: Block)
    ensures HasCall(Next(st, BlockStart(index, b)).nodes) <==> HasCall(st.nodes) || b.ToolUse?
  {
    hide HasCall, Closed, Put;
    if At(st, index).Some? {
      KindsStay(st.nodes[At(st, index).value], false, "");
      PutCalls(st, index, Closed(st.nodes[At(st, index).value]));
      HasCallMore(Put(st, index, Closed(st.nodes[At(st, index).value])).nodes, NodeOf(b));
    } else {
      HasCallMore(st.nodes, NodeOf(b));
    }
  }

  lemma NextCalls(st: State, e: Event)
    ensures HasCall(Next(st, e).nodes) <==> HasCall(st.nodes) || (e.BlockStart? && e.block.ToolUse?)
  {
    hide HasCall, Closed, Extended, Put, Grow, Ensured;
    match e
    case BlockStart(index, b) => StartCalls(st, index, b);
    case TextDelta(index, t) =>
      EnsuredCalls(st, index, NodeOf(Text("")));
      GrowCalls(Ensured(st, index, NodeOf(Text(""))), index, false, t);
    case ThinkingDelta(index, t) =>
      EnsuredCalls(st, index, NodeOf(Thinking("", "")));
      GrowCalls(Ensured(st, index, NodeOf(Thinking("", ""))), index, false, t);
    case SignatureDelta(index, signature) =>
      if At(st, index).Some? && st.nodes[At(st, index).value].ThinkingBody? {
        PutCalls(st, index, st.nodes[At(st, index).value].(signature := signature));
      }
    case JsonDelta(index, json) => GrowCalls(st, index, true, json);
    case BlockStop(index) =>
      if At(st, index).Some? {
        KindsStay(st.nodes[At(st, index).value], false, "");
        PutCalls(st, index, Closed(st.nodes[At(st, index).value]));
      }
    case _ =>
  }

  lemma NextStop(st: State, e: Event)
    ensures Next(st, e).stop == if e.MessageDelta? && e.stop != "" then e.stop else st.stop
  {
    hide Closed, Extended, NodeOf;
  }

  lemma {:induction false} CallsAndStop(es: seq<Event>)
    ensures HasCall(Play(NoEvents, es).nodes) <==> Announces(es)
    ensures Play(NoEvents, es).stop == LastStop(es)
  {
    if es != [] {
      hide Next, HasCall, Announces, Play;
      var init, e := es[..|es| - 1], es[|es| - 1];
      CallsAndStop(init);
      PlayLast(es);
      NextCalls(Play(NoEvents, init), e);
      NextStop(Play(NoEvents, init), e);
      AnnouncesMore(init, e);
      assert init + [e] == es;
    }
  }

  /** Where no reason came, a stream that announced a tool call stopped for it, and any other ended its turn. */
  lemma StopFromEvents(es: seq<Event>)
    ensures Completed(Play(NoEvents, es)).stop
         == if LastStop(es) != "" then LastStop(es) else if Announces(es) then "tool_use" else "end_turn"
  {
    hide Play, Assistant, AllClosed, HasCall, FlatMap, Announces, LastStop;
    CallsAndStop(es);
  }

  // --- the whole response, field by field

  function TextIn(blocks: seq<Block>): string {
    if blocks == [] then ""
    else
      var b := blocks[|blocks| - 1];
      TextIn(blocks[..|blocks| - 1]) + if b.Text? then b.text else ""
  }

  function CallsIn(blocks: seq<Block>): seq<M.ToolCall> {
    if blocks == [] then []
    else
      var b := blocks[|blocks| - 1];
      CallsIn(blocks[..|blocks| - 1]) + if b.ToolUse? then [M.ToolCall(b.id, b.name, M.ToolArgs(b.input))] else []
  }

  function ThoughtsIn(blocks: seq<Block>): seq<M.ThinkingBlock> {
    if blocks == [] then []
    else
      ThoughtsIn(blocks[..|blocks| - 1])
      + match blocks[|blocks| - 1]
        case Thinking(t, signature) => [M.ThinkingBlock(t, signature, "", "", false)]
        case Redacted(data) => [M.ThinkingBlock("", "", "", data, false)]
        case _ => []
  }

  /** The turn says what the blocks say, its stop reason is the one that came or the one the blocks suggest, and its usage
      is that of the counts, where there are any. */
  predicate TellsOf(comp: Completion, blocks: seq<Block>, stop: string, counts: Option<Counts>) {
    && comp.message.role.Assistant? && comp.message.content == TextIn(blocks)
    && comp.message.toolCalls == CallsIn(blocks) && comp.message.thinking == ThoughtsIn(blocks)
    && comp.stop == (if stop != "" then stop else if AnyToolUse(blocks) then "tool_use" else "end_turn")
    && (comp.usage.Some? <==> counts.Some?)
    && (counts.Some? ==> UsageSays(comp.usage.value, counts.value, OrZero(counts.value.output)))
  }

  lemma BlockSays(b: Block)
    ensures FlatMap(M.TextOf, BlockPart(b)) == TextIn([b]) && FlatMap(M.ToolCallOf, BlockPart(b)) == CallsIn([b])
    ensures FlatMap(M.BlockOf, BlockPart(b)) == ThoughtsIn([b])
  {
    assert [b][..0] == [];
    if BlockPart(b) != [] {
      assert BlockPart(b) == [BlockPart(b)[0]];
      FlatMapOne(M.TextOf, BlockPart(b)[0]);
      FlatMapOne(M.ToolCallOf, BlockPart(b)[0]);
      FlatMapOne(M.BlockOf, BlockPart(b)[0]);
    }
  }

  lemma TextSnoc(bs: seq<Block>, b: Block)
    ensures TextIn(bs + [b]) == TextIn(bs) + TextIn([b])
  {
    assert (bs + [b])[..|bs|] == bs && [b][..0] == [];
  }

  lemma CallsSnoc(bs: seq<Block>, b: Block)
    ensures CallsIn(bs + [b]) == CallsIn(bs) + CallsIn([b])
  {
    assert (bs + [b])[..|bs|] == bs && [b][..0] == [];
  }

  lemma ThoughtsSnoc(bs: seq<Block>, b: Block)
    ensures ThoughtsIn(bs + [b]) == ThoughtsIn(bs) + ThoughtsIn([b])
  {
    assert (bs + [b])[..|bs|] == bs && [b][..0] == [];
  }

  lemma BlocksSnoc(bs: seq<Block>, b: Block)
    ensures FlatMap(M.TextOf, FlatMap(BlockPart, bs + [b])) == FlatMap(M.TextOf, FlatMap(BlockPart, bs)) + TextIn([b])
    ensures FlatMap(M.ToolCallOf, FlatMap(BlockPart, bs + [b])) == FlatMap(M.ToolCallOf, FlatMap(BlockPart, bs)) + CallsIn([b])
    ensures FlatMap(M.BlockOf, FlatMap(BlockPart, bs + [b])) == FlatMap(M.BlockOf, FlatMap(BlockPart, bs)) + ThoughtsIn([b])
  {
    hide FlatMap, BlockPart, TextIn, CallsIn, ThoughtsIn, M.TextOf, M.BlockOf, M.ToolCallOf;
    FlatMapSnoc(BlockPart, bs, b);
    FlatMapConcat(M.TextOf, FlatMap(BlockPart, bs), BlockPart(b));
    FlatMapConcat(M.ToolCallOf, FlatMap(BlockPart, bs), BlockPart(b));
    FlatMapConcat(M.BlockOf, FlatMap(BlockPart, bs), BlockPart(b));
    BlockSays(b);
  }

  lemma {:induction false} BlocksSay(blocks: seq<Block>)
    ensures FlatMap(M.TextOf, FlatMap(BlockPart, blocks)) == TextIn(blocks)
    ensures FlatMap(M.ToolCallOf, FlatMap(BlockPart, blocks)) == CallsIn(blocks)
    ensures FlatMap(M.BlockOf, FlatMap(BlockPart, blocks)) == ThoughtsIn(blocks)
  {
    if blocks != [] {
      hide FlatMap, BlockPart, TextIn, CallsIn, ThoughtsIn, M.TextOf, M.BlockOf, M.ToolCallOf;
      var init, b := blocks[..|blocks| - 1], blocks[|blocks| - 1];
      BlocksSay(init);
      assert init + [b] == blocks;
      BlocksSnoc(init, b);
      TextSnoc(init, b);
      CallsSnoc(init, b);
      ThoughtsSnoc(init, b);
    }
  }

  lemma WholeTells(blocks: seq<Block>, stop: string, counts: Option<Counts>)
    ensures TellsOf(Whole(blocks, stop, counts), blocks, stop, counts)
  {
    hide FlatMap, BlockPart, TextIn, CallsIn, ThoughtsIn, M.TextOf, M.BlockOf, M.ToolCallOf, AnyToolUse;
    BlocksSay(blocks);
    CallsOfBlocks(blocks);
    AssistantSays(FlatMap(BlockPart, blocks));
  }

  lemma AssistantSays(ps: seq<M.Part>)
    ensures var m := Assistant(ps);
            && m.role.Assistant? && m.content == FlatMap(M.TextOf, ps) && m.toolCalls == FlatMap(M.ToolCallOf, ps)
            && m.thinking == FlatMap(M.BlockOf, ps)
  {
  }
}
