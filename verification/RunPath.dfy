/** Where the nodes come from that join the path during a run (internal/loop/run_loop.go, internal/loop/session.go). */
module RunPaths {
  import opened Wrappers
  import opened Lists
  import opened Messages
  import opened Nodes
  import opened Convert
  import opened Protocol
  import opened Ledgers
  import opened Sessions
  import opened Trees
  import opened RunRecords
  import opened RunTurns

  /** The j-th event is a call, and the host puts another batch in the place of the one it asked for. */
  predicate Replaced(log: seq<Event>, w: World, j: nat) {
    j + 1 < |log| && log[j].Called? && log[j + 1].Batch? && w.batch(j + 2) != log[j + 1].calls
  }

  /** The i-th node of the path is a part of the model call x, off the wire only as a call whose batch was replaced; or
      it is a call of the batch that replaced it, on the wire. */
  predicate OfAnswer(log: seq<Event>, w: World, v: Ledger, j: nat, x: Stream, i: nat)
    requires i < |v.trail|
  {
    var gone := Replaced(log, w, j) && Instead(v, x, w.batch(j + 2));
    || (x.at <= i < EndOf(x) && (v.trail[i].superseded ==> v.trail[i].body.ToolCallBody? && gone))
    || (gone && EndOf(x) <= i < EndOf(x) + |w.batch(j + 2)| && !v.trail[i].superseded)
  }

  /** It came with the j-th event, which is a call. */
  predicate OfCallAt(log: seq<Event>, w: World, v0: Ledger, v: Ledger, j: nat, i: nat)
    requires i < |v.trail|
  {
    && j < |log| && log[j].Called? && CallsBefore(log, j, v0) < |v.streams|
    && OfAnswer(log, w, v, j, v.streams[CallsBefore(log, j, v0)], i)
  }

  /** It is the summary of the j-th event. */
  predicate OfSummary(log: seq<Event>, v: Ledger, j: nat, i: nat)
    requires i < |v.trail|
  {
    j < |log| && log[j].Compacted? && log[j].at == i && v.trail[i].body.CompactionBody?
  }

  /** It is a result, which says so when its call did not run; or a finished text of the loop's own, under the record of
      a model call. */
  predicate OfLoop(v: Ledger, n: Node) {
    if n.LinkedResult() then n.body.omitted != "" ==> n.body.isError && n.body.content == [TextContent(n.body.omitted)]
    else
      && n.body.AssistantBody? && n.body.text.done && !Blank(n.body.text.Current())
      && n.call.Some? && OfStream(v.streams, n.call.value)
  }

  /** The i-th node of the path came from a host, with a model call, as a summary, or from the loop itself. */
  ghost predicate CameFrom(log: seq<Event>, w: World, v0: Ledger, v: Ledger, i: nat)
    requires i < |v.trail|
  {
    || v.trail[i].ref in v.foreign
    || (!v.trail[i].superseded && (OfLoop(v, v.trail[i]) || exists j :: OfSummary(log, v, j, i)))
    || exists j :: OfCallAt(log, w, v0, v, j, i)
  }

  /** All that was there at v0 is as it was, and everything that joined since is accounted for. */
  ghost predicate Grew(log: seq<Event>, w: World, v0: Ledger, v: Ledger) {
    && v0.nodes <= v.nodes && v0.trail <= v.trail
    && (forall k :: |v0.streams| <= k < |v.streams| ==> |v0.trail| <= v.streams[k].at)
    && (forall i :: |v0.trail| <= i < |v.trail| ==> v.trail[i].ref >= |v0.nodes| && CameFrom(log, w, v0, v, i))
  }

  lemma GrewAtFirst(w: World, v: Ledger)
    ensures Grew([], w, v, v)
  {
  }

  /** What a host brought in stays on the wire. */
  lemma {:induction false} HostsStay(v: Ledger, i: nat)
    requires Sound(v) && i < |v.trail| && v.trail[i].ref in v.foreign
    ensures !v.trail[i].superseded
  {
    hide PostedAt, OfPost, InOrder, Fenced, OnArena, RefsBelow, RefsUnder, CallsUnder, AllStreamed, RecordsSplit, AtSummary;
    var k :| 0 <= k < |v.posts| && OfPost(v.posts[k], v.trail, v.dialect, v.trail[i].ref);
    PostNode(v.posts[k], v.trail, v.foreign, v.dialect, i);
  }

  lemma {:induction false} PostNode(p: Post, t: seq<Node>, foreign: set<Ref>, d: Dialect, i: nat)
    requires InOrder(t) && i < |t| && OfPost(p, t, d, t[i].ref) && PostedAt(p, t, foreign, d)
    ensures !t[i].superseded
  {
    hide NodesOf;
    var ns := NodesOf(p.m, d, p.rec);
    var j :| p.at <= j < p.at + |ns| && j < |t| && t[j].ref == t[i].ref;
    assert j == i;
    assert Alike(t[p.at..p.at + |ns|][i - p.at], ns[i - p.at]);
    NodesOnWire(p.m, d, p.rec, i - p.at);
  }

  lemma NodesOnWire(m: Message, d: Dialect, rec: nat, i: nat)
    requires i < |NodesOf(m, d, rec)|
    ensures !NodesOf(m, d, rec)[i].superseded
  {
    hide Bodies;
  }

  /** What leaves the wire: a node that joined is superseded only as a tool call of a model call whose
      batch the host replaced; with it, every call of that model call is, and the replacement stands after its parts. */
  lemma OffTheWire(log: seq<Event>, w: World, v0: Ledger, v: Ledger, i: nat) returns (j: nat, x: Stream)
    requires Sound(v) && Grew(log, w, v0, v) && |v0.trail| <= i < |v.trail| && v.trail[i].superseded
    ensures Replaced(log, w, j) && CallsBefore(log, j, v0) < |v.streams| && x == v.streams[CallsBefore(log, j, v0)]
    ensures x.at <= i < EndOf(x) && v.trail[i].body.ToolCallBody? && Instead(v, x, w.batch(j + 2))
  {
    hide CallsBefore, Instead, Sound;
    if v.trail[i].ref in v.foreign {
      HostsStay(v, i);
    }
    assert CameFrom(log, w, v0, v, i);
    j :| OfCallAt(log, w, v0, v, j, i);
    x := v.streams[CallsBefore(log, j, v0)];
  }

  // --- what it keeps

  lemma OfAnswerStill(log: seq<Event>, more: seq<Event>, w: World, a: Ledger, b: Ledger, j: nat, x: Stream, i: nat)
    requires i < |a.trail| && OfAnswer(log, w, a, j, x, i) && log <= more && SameBodies(a, b) && b.trail[i] == a.trail[i]
    ensures OfAnswer(more, w, b, j, x, i)
  {
    hide Instead, SameForeign;
    if Instead(a, x, w.batch(j + 2)) {
      InsteadStill(a, b, x, w.batch(j + 2));
    }
  }

  lemma OfLoopStill(a: Ledger, b: Ledger, n: Node)
    requires OfLoop(a, n) && a.streams <= b.streams
    ensures OfLoop(b, n)
  {
    hide OfStream, Blank;
    if !n.LinkedResult() {
      OfStreamStill(a.streams, b.streams, n.call.value);
    }
  }

  lemma CameFromStill(log: seq<Event>, more: seq<Event>, w: World, v0: Ledger, a: Ledger, b: Ledger, i: nat)
    requires i < |a.trail| && CameFrom(log, w, v0, a, i) && log <= more && SameBodies(a, b) && b.trail[i] == a.trail[i]
    ensures CameFrom(more, w, v0, b, i)
  {
    hide OfAnswer, OfLoop, FlatMap;
    if j: nat :| OfCallAt(log, w, v0, a, j, i) {
      assert more[..j] == log[..j];
      OfAnswerStill(log, more, w, a, b, j, a.streams[CallsBefore(log, j, v0)], i);
      assert OfCallAt(more, w, v0, b, j, i);
    } else if OfLoop(a, a.trail[i]) {
      OfLoopStill(a, b, a.trail[i]);
    } else if j: nat :| OfSummary(log, a, j, i) {
      assert OfSummary(more, b, j, i);
    }
  }

  /** Nodes joined, each accounted for. */
  lemma GrewBy(log: seq<Event>, more: seq<Event>, w: World, v0: Ledger, a: Ledger, b: Ledger, ns: seq<Node>)
    requires Grew(log, w, v0, a) && log <= more && b.nodes == a.nodes + ns && b.trail == a.trail + ns && RefsRun(ns, |a.nodes|)
    requires SameBodies(a, b) && forall k :: |a.streams| <= k < |b.streams| ==> |a.trail| <= b.streams[k].at
    requires forall i :: |a.trail| <= i < |b.trail| ==> CameFrom(more, w, v0, b, i)
    ensures Grew(more, w, v0, b)
  {
    hide CameFrom, SameForeign;
    forall i | |v0.trail| <= i < |b.trail| ensures b.trail[i].ref >= |v0.nodes| && CameFrom(more, w, v0, b, i) {
      if i < |a.trail| {
        CameFromStill(log, more, w, v0, a, b, i);
      }
    }
  }

  /** An event, and nothing joined. */
  lemma GrewNoted(log: seq<Event>, w: World, v0: Ledger, v: Ledger, e: Event)
    requires Grew(log, w, v0, v)
    ensures Grew(log + [e], w, v0, v)
  {
    hide CameFrom, SameBodies;
    SelfBodies(v, map[]);
    forall i | |v0.trail| <= i < |v.trail| ensures CameFrom(log + [e], w, v0, v, i) {
      CameFromStill(log, log + [e], w, v0, v, v, i);
    }
  }

  /** Results joined, or a text of the loop's own. */
  lemma GrewStep(log: seq<Event>, w: World, v0: Ledger, a: Ledger, ns: seq<Node>)
    requires Grew(log, w, v0, a) && RefsRun(ns, |a.nodes|)
    requires forall i :: 0 <= i < |ns| ==> !ns[i].superseded && OfLoop(a, ns[i])
    ensures Grew(log, w, v0, a.Grown(ns, a.records))
  {
    hide OfLoop, Grew, SameBodies;
    var b := a.Grown(ns, a.records);
    GrownSame(a, b, ns);
    forall i | |a.trail| <= i < |b.trail| ensures CameFrom(log, w, v0, b, i) {
      OfLoopStill(a, b, b.trail[i]);
    }
    GrewBy(log, log, w, v0, a, b, ns);
  }

  lemma GrownSame(a: Ledger, b: Ledger, ns: seq<Node>)
    requires b.nodes == a.nodes + ns && b.trail == a.trail + ns && a.streams <= b.streams && SameForeign(a, b)
    ensures SameBodies(a, b)
  {
  }

  /** A message was told. */
  lemma GrewTold(log: seq<Event>, w: World, v0: Ledger, a: Ledger, m: Message, ns: seq<Node>, e: Event)
    requires Grew(log, w, v0, a) && RefsRun(ns, |a.nodes|) && SameForeign(a, a.Told(m, ns))
    ensures Grew(log + [e], w, v0, a.Told(m, ns))
  {
    hide Grew, SameBodies, SameForeign;
    var b := a.Told(m, ns);
    GrownSame(a, b, ns);
    forall i | |a.trail| <= i < |b.trail| ensures CameFrom(log + [e], w, v0, b, i) {
      assert NodeRefs(ns)[i - |a.trail|] == b.trail[i].ref;
    }
    GrewBy(log, log + [e], w, v0, a, b, ns);
  }

  /** A summary joined. */
  lemma GrewCompacted(log: seq<Event>, w: World, v0: Ledger, a: Ledger, c: Node, e: Event)
    requires Grew(log, w, v0, a) && c.ref == |a.nodes| && c.body.CompactionBody? && !c.superseded
    requires e.Compacted? && e.at == |a.trail|
    ensures Grew(log + [e], w, v0, a.Compacted(c))
  {
    hide Grew, SameBodies;
    var b, more := a.Compacted(c), log + [e];
    GrownSame(a, b, [c]);
    assert OfSummary(more, b, |log|, |a.trail|);
    GrewBy(log, more, w, v0, a, b, [c]);
  }

  /** The parts of a model call joined. */
  lemma GrewCalled(log: seq<Event>, w: World, v0: Ledger, a: Ledger, ns: seq<Node>, rec: nat, e: Event)
    requires Grew(log, w, v0, a) && RefsRun(ns, |a.nodes|) && AllOfCall(ns, rec) && e.Called? && |BodiesIn(e.pieces)| == |ns|
    requires |a.streams| == |v0.streams| + |FlatMap(PiecesIn, log)|
    ensures Grew(log + [e], w, v0, a.Asked().Streamed(ns, BodiesIn(e.pieces)))
  {
    hide Grew, SameBodies, FlatMap, BodiesIn, OfCall, Instead;
    var b, more := a.Asked().Streamed(ns, BodiesIn(e.pieces)), log + [e];
    GrownSame(a, b, ns);
    assert more[..|log|] == log;
    forall i | |a.trail| <= i < |b.trail| ensures CameFrom(more, w, v0, b, i) {
      OnWire(ns[i - |a.trail|], rec);
      assert OfCallAt(more, w, v0, b, |log|, i);
    }
    GrewBy(log, more, w, v0, a, b, ns);
  }

  lemma OnWire(n: Node, rec: nat)
    requires OfCall(n, rec)
    ensures !n.superseded
  {
  }

  // --- a replaced batch

  /** The newest events are a model call and the batch it asked for, which the host replaced by calls. */
  predicate ReplacesNow(log: seq<Event>, w: World, calls: seq<ToolCall>) {
    |log| > 1 && Replaced(log, w, |log| - 2) && w.batch(|log|) == calls
  }

  lemma ReplacedLast(log: seq<Event>, w: World, v0: Ledger, v: Ledger, calls: seq<ToolCall>)
    requires ReplacesNow(log, w, calls) && |v.streams| == |v0.streams| + |FlatMap(PiecesIn, log)|
    ensures |v.streams| > |v0.streams| && CallsBefore(log, |log| - 2, v0) == |v.streams| - 1
  {
    hide FlatMap;
    var n := |log|;
    assert log == log[..n - 2] + [log[n - 2]] + [log[n - 1]];
    FlatMapSnoc(PiecesIn, log[..n - 2] + [log[n - 2]], log[n - 1]);
    FlatMapSnoc(PiecesIn, log[..n - 2], log[n - 2]);
  }

  /** What leaves the wire is the calls of the turn: none of them was on the path when its request went out, or at v0. */
  lemma TurnLeaves(log: seq<Event>, w: World, v0: Ledger, v: Ledger, ns: seq<Node>, rec: nat, S: set<Ref>)
    requires Grew(log, w, v0, v) && TurnOpen(v, ns, rec) && |v.streams| > |v0.streams|
    requires forall r :: r in S ==> r in NodeRefs(ns)
    ensures forall r :: r in S ==> r >= |v0.nodes|
    ensures forall i :: 0 <= i < v.sent ==> v.trail[i].ref !in S
    ensures |v0.trail| <= v.sent <= |v.trail|
  {
    hide CameFrom, OwnCalls, MayText, Housed, AllOfCall, NodeRefs;
    forall r | r in S ensures r >= |v0.nodes| {
      var i :| 0 <= i < |ns| && NodeRefs(ns)[i] == r;
      assert v.trail[v.sent + i] == ns[i];
    }
  }

  /** The turn's calls are off the wire, and the batch stands after its parts. */
  lemma ReplacedStands(v: Ledger, ns: seq<Node>, S: set<Ref>, ms: seq<Node>, calls: seq<ToolCall>)
    requires EndsPath(v, ns) && |ms| == |calls| && RefsRun(ms, |v.nodes|) && RefsUnder(v.foreign, |v.nodes|)
    requires forall i :: 0 <= i < |ns| && ns[i].LiveCall() ==> ns[i].ref in S
    requires forall i :: 0 <= i < |ms| ==> ms[i].body == BodyOf(calls[i])
    ensures Instead(v.Without(S).Grown(ms, v.records), v.streams[|v.streams| - 1], calls)
  {
    hide BodyOf;
    var x, t := v.streams[|v.streams| - 1], Mark(v.trail, S);
    forall i | x.at <= i < EndOf(x) && t[i].body.ToolCallBody? ensures t[i].superseded {
      assert v.trail[i] == ns[i - x.at];
    }
  }

  /** Nothing that was there at v0 leaves the wire. */
  lemma ReplacedOld(v0: Ledger, v: Ledger, S: set<Ref>, ms: seq<Node>)
    requires Placed(v.nodes) && v0.nodes <= v.nodes && v0.trail <= v.trail && |v0.trail| <= v.sent <= |v.trail|
    requires (forall r :: r in S ==> r >= |v0.nodes|) && forall i :: 0 <= i < v.sent ==> v.trail[i].ref !in S
    ensures var b := v.Without(S).Grown(ms, v.records);
            v0.nodes <= b.nodes && v0.trail <= b.trail && forall i :: 0 <= i < v.sent ==> b.trail[i] == v.trail[i]
  {
    assert forall r :: 0 <= r < |v0.nodes| ==> Mark(v.nodes, S)[r] == v0.nodes[r];
  }

  /** A part of the turn, now: off the wire exactly when it is a call. */
  lemma ReplacedPart(v: Ledger, ns: seq<Node>, rec: nat, S: set<Ref>, ms: seq<Node>, i: nat)
    requires EndsPath(v, ns) && AllOfCall(ns, rec) && v.sent <= i < |v.trail|
    requires forall k :: 0 <= k < |ns| ==> (ns[k].LiveCall() <==> ns[k].ref in S)
    ensures var b := v.Without(S).Grown(ms, v.records);
            b.trail[i].ref == v.trail[i].ref && (b.trail[i].superseded ==> b.trail[i].body.ToolCallBody?)
  {
    hide OfCall;
    assert v.trail[i] == ns[i - v.sent];
    OnWire(ns[i - v.sent], rec);
  }

  /** The batch of the newest model call is replaced. */
  lemma GrewReplaced(log: seq<Event>, w: World, v0: Ledger, v: Ledger, ns: seq<Node>, rec: nat, S: set<Ref>, ms: seq<Node>, calls: seq<ToolCall>)
    requires Grew(log, w, v0, v) && ReplacesNow(log, w, calls) && |v.streams| == |v0.streams| + |FlatMap(PiecesIn, log)|
    requires Placed(v.nodes) && TurnOpen(v, ns, rec) && |ms| == |calls| && RefsRun(ms, |v.nodes|) && RefsUnder(v.foreign, |v.nodes|)
    requires (forall r :: r in S ==> r in NodeRefs(ns)) && forall i :: 0 <= i < |ns| ==> (ns[i].LiveCall() <==> ns[i].ref in S)
    requires forall i :: 0 <= i < |ms| ==> ms[i].body == BodyOf(calls[i]) && !ms[i].superseded
    ensures Grew(log, w, v0, v.Without(S).Grown(ms, v.records))
    ensures Instead(v.Without(S).Grown(ms, v.records), v.streams[|v.streams| - 1], calls)
  {
    hide CameFrom, OwnCalls, MayText, Housed, OfCall, NodeRefs, BodyOf, Instead, FlatMap, ReplacesNow, Elems, SameBodies;
    hide AllOfCall, MayMark, RefsUnder, Mark, Placed;
    var b := v.Without(S).Grown(ms, v.records);
    ReplacedLast(log, w, v0, v, calls);
    TurnLeaves(log, w, v0, v, ns, rec, S);
    ReplacedStands(v, ns, S, ms, calls);
    ReplacedBodies(v, S, ms);
    ReplacedOld(v0, v, S, ms);
    forall i | |v0.trail| <= i < |b.trail| ensures b.trail[i].ref >= |v0.nodes| && CameFrom(log, w, v0, b, i) {
      if i < v.sent {
        CameFromStill(log, log, w, v0, v, b, i);
      } else {
        if i < |v.trail| {
          ReplacedPart(v, ns, rec, S, ms, i);
        }
        ReplacedHere(log, w, v0, b, calls, i);
      }
    }
  }

  lemma ReplacedBodies(v: Ledger, S: set<Ref>, ms: seq<Node>)
    ensures SameBodies(v, v.Without(S).Grown(ms, v.records))
  {
  }

  lemma ReplacedHere(log: seq<Event>, w: World, v0: Ledger, b: Ledger, calls: seq<ToolCall>, i: nat)
    requires ReplacesNow(log, w, calls) && 0 <= CallsBefore(log, |log| - 2, v0) == |b.streams| - 1
    requires var x := b.streams[|b.streams| - 1]; Instead(b, x, calls) && x.at <= i < |b.trail| == EndOf(x) + |calls|
    requires var x := b.streams[|b.streams| - 1];
             if i < EndOf(x) then b.trail[i].superseded ==> b.trail[i].body.ToolCallBody? else !b.trail[i].superseded
    ensures CameFrom(log, w, v0, b, i)
  {
    hide FlatMap, Instead;
    assert OfCallAt(log, w, v0, b, |log| - 2, i);
  }
}
