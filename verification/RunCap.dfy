/** Runs that make more calls than their cap, event by event (internal/loop/run_loop.go). */
module RunCaps {
  import opened Wrappers
  import opened Lists
  import opened Messages
  import opened Nodes
  import opened Convert
  import opened Protocol
  import opened Ledgers
  import opened Sessions
  import opened RunRecords
  import opened RunTurns
  import opened RunSteps
  import opened RunPaths
  import opened RunHeads
  import opened RunPhases
  import opened RunLoop
  import Dedup
  import StreamStrings
  import P = RunPasses

  // --- a run without batches

  /** Neither a batch nor anything of one. */
  predicate Simple(e: Event) {
    !e.Batch? && !e.Ran? && !e.Recorded? && !IsNudge(e) && QueuedIn(e) == []
  }

  /** The world whose answers are those in the log. */
  function WorldOf(log: seq<Event>): World {
    World(
      (i: nat) => if i < |log| && log[i].Called? then log[i].pieces else [],
      (i: nat) => if i < |log| && log[i].Called? then log[i].refused else map[],
      (i: nat) => if i < |log| && log[i].Compacted? then Some(log[i].summary) else None,
      (i: nat) => if i < |log| && log[i].Polled? then log[i].inbox else [],
      (i: nat) => if i < |log| && log[i].Watched? then log[i].notice else None,
      (i: nat) => [],
      (i: nat, k: nat) => None,
      (i: nat, k: nat) => ToolOutput("", false))
  }

  lemma WorldAnswers(log: seq<Event>)
    requires forall i :: 0 <= i < |log| ==> Simple(log[i])
    ensures RunRecords.Follows(log, WorldOf(log))
  {
    forall i | 0 <= i < |log| ensures FollowsAt(log, i, WorldOf(log)) {
      assert Simple(log[i]);
    }
  }

  /** How far a run has come: its events, the state they lead to, and the calls so far. */
  datatype Story = Story(log: seq<Event>, v: Ledger, turns: nat)

  /** What the session was when the run began. */
  datatype Setting = Setting(cfg: Config, v0: Ledger, marks: map<Ref, Dedup.Key>, hash: string -> string)

  ghost predicate Rested(g: Setting) {
    Sound(g.v0) && g.v0.Open() == Some({}) && Backed(g.v0, g.marks, g.hash, [])
  }

  predicate Events(log: seq<Event>, maxTurns: int, turns: nat) {
    && Counted(log, maxTurns, turns) && Stuck(log, 0, "") && Chained(log, maxTurns)
    && (forall i :: 0 <= i < |log| ==> Simple(log[i])) && FlatMap(QueuedIn, log) == []
  }

  /** The events are in order, and the state is what they say. */
  ghost predicate Fine(g: Setting, st: Story) {
    && Events(st.log, g.cfg.maxTurns, st.turns)
    && Recounts(st.log, g.v0, g.marks, g.hash, [], st.v) && Sound(st.v) && st.v.Open() == Some({})
    && Grew(st.log, WorldOf([]), g.v0, st.v) && Attentive(st.log, g.cfg.watcher) && PhaseIn(st.log).owed == []
  }

  /** An event that may come now leaves it so. */
  lemma FineMore(log: seq<Event>, e: Event, watcher: bool)
    requires Attentive(log, watcher) && PhaseIn(log).owed == [] && QueuedIn(e) == [] && (e.Taken? ==> e.queued == [])
    requires e.Called? && !e.wrapUp ==> Prepared(PhaseIn(log), watcher)
    ensures Attentive(log + [e], watcher) && PhaseIn(log + [e]).owed == [] && PhaseIn(log + [e]) == Moves(PhaseIn(log), e)
  {
    hide PhaseIn, Attentive;
    PhaseMore(log, e);
    AttentiveMore(log, e, watcher);
  }

  /** Without batches it does not matter which the world would put in their place. */
  lemma GrewAlike(log: seq<Event>, w: World, w': World, v0: Ledger, v: Ledger)
    requires Grew(log, w, v0, v) && forall i: nat :: w.batch(i) == w'.batch(i)
    ensures Grew(log, w', v0, v)
  {
    hide OfLoop, OfSummary, Instead, CallsBefore;
    forall i | |v0.trail| <= i < |v.trail| ensures CameFrom(log, w', v0, v, i) {
      assert CameFrom(log, w, v0, v, i);
      if j: nat :| OfCallAt(log, w, v0, v, j, i) {
        assert OfCallAt(log, w', v0, v, j, i);
      }
    }
  }

  lemma EventsMore(log: seq<Event>, maxTurns: int, turns: nat, e: Event)
    requires Events(log, maxTurns, turns) && Simple(e) && WithinCap(e, maxTurns) && Links(Last(log), e, maxTurns)
    ensures Events(log + [e], maxTurns, if e.Called? then turns + 1 else turns)
  {
    hide Counted, Stuck, Chained, WithinCap, Links, FlatMap;
    CountedMore(log, maxTurns, turns, e);
    StuckOther(log, 0, "", e);
    ChainedMore(log, maxTurns, e);
    FlatMapSnoc(QueuedIn, log, e);
  }

  lemma Begins(g: Setting) returns (st: Story)
    requires Rested(g)
    ensures st == Story([], g.v0, 0) && Fine(g, st)
  {
    hide Sound, Backed, Recounts, Grew, OpenCalls;
    st := Story([], g.v0, 0);
    RecountsAtFirst(g.v0, g.marks, g.hash);
    GrewAtFirst(WorldOf([]), g.v0);
    NoEvents(g.cfg.maxTurns);
  }

  lemma NoEvents(maxTurns: int)
    ensures Events([], maxTurns, 0)
  {
  }

  // --- its steps

  /** The tools of the call with this number: none for the last one permitted. */
  function ToolsAt(cfg: Config, number: nat): seq<Tool> {
    if cfg.maxTurns > 0 && number == cfg.maxTurns then [] else cfg.tools
  }

  const Nothing: seq<Piece> := []
  const Says: seq<Piece> := [Begin("", "", AssistantBody(StreamStrings.Finished("ok")))]

  lemma AssembledOne(p: Piece)
    ensures Assembled([]) == [] && Assembled([p]) == AddPiece([], p)
  {
    hide AddPiece;
    assert [p][..0] == [];
  }

  lemma ClosedOne(b: Body)
    ensures AllClosed([]) == [] && AllClosed([b]) == [Closed(b)]
  {
    hide Closed;
  }

  lemma CallsInOne(b: Body)
    requires !b.ToolCallBody?
    ensures CallsIn([]) == [] && CallsIn([b]) == []
  {
    assert [b][..0] == [];
  }

  lemma {:induction false} SaysBodies()
    ensures BodiesIn(Nothing) == [] && BodiesIn(Says) == [AssistantBody(StreamStrings.Finished("ok"))]
    ensures CallsIn(BodiesIn(Nothing)) == [] && CallsIn(BodiesIn(Says)) == []
  {
    hide Assembled, AllClosed, CallsIn;
    var b := AssistantBody(StreamStrings.Finished("ok"));
    AssembledOne(Begin("", "", b));
    ClosedOne(b);
    CallsInOne(b);
    assert AddPiece([], Begin("", "", b)) == [b] && Closed(b) == b;
  }

  /** The nodes that a call with this answer leaves. */
  function AnswerNodes(v: Ledger, says: bool): seq<Node> {
    if says then [Node(|v.nodes|, "", false, "", Some(v.records), false, AssistantBody(StreamStrings.Finished("ok")))] else []
  }

  lemma AnswerJoins(v: Ledger, says: bool)
    requires Sound(v) && v.Open() == Some({})
    ensures var ns := AnswerNodes(v, says);
            && AllOfCall(ns, v.records) && RefsRun(ns, |v.nodes|) && BodiesOf(ns) == BodiesIn(if says then Says else Nothing)
            && Sound(v.Asked().Streamed(ns, BodiesOf(ns))) && v.Asked().Streamed(ns, BodiesOf(ns)).Open() == Some({})
            && v.start <= |v.trail|
  {
    hide Sound, OpenCalls, AllClosed, Assembled;
    SaysBodies();
    AskedKeeps(v);
    var ns := AnswerNodes(v, says);
    AnswerShape(v, says);
    StreamKeeps(v.Asked(), ns);
    assert Elems([]) == {};
  }

  lemma AnswerShape(v: Ledger, says: bool)
    ensures var ns := AnswerNodes(v, says);
            && AllOfCall(ns, v.records) && RefsRun(ns, |v.nodes|) && LiveRefs(ns) == []
            && BodiesOf(ns) == if says then [AssistantBody(StreamStrings.Finished("ok"))] else []
  {
    var ns := AnswerNodes(v, says);
    if says {
      assert ns[..0] == [] && LiveRefs([]) == [] && BodiesOf([]) == [];
    }
  }

  /** A call that fails, or stays silent, or says "ok". */
  lemma Calls(g: Setting, st: Story, number: nat, wrapUp: bool, says: bool) returns (next: Story)
    requires Fine(g, st) && Free(st.log, g.cfg.maxTurns) && number > 0 && (g.cfg.maxTurns > 0 ==> number <= g.cfg.maxTurns)
    requires !wrapUp ==> Prepared(PhaseIn(st.log), g.cfg.watcher)
    ensures Fine(g, next) && Free(next.log, g.cfg.maxTurns) && next.turns == st.turns + 1
  {
    hide Sound, Recounts, Grew, Attentive, PhaseIn, OpenCalls, Events, Flatten, CallsIn, BodiesIn, AllOfCall, RefsRun, BodiesOf;
    var pieces := if says then Says else Nothing;
    SaysBodies();
    AnswerJoins(st.v, says);
    var ns := AnswerNodes(st.v, says);
    var e := Called(number, st.v.Window(), if wrapUp then [] else ToolsAt(g.cfg, number), wrapUp, "", pieces, map[], false);
    EventsMore(st.log, g.cfg.maxTurns, st.turns, e);
    CalledKeeps(st.log, g.v0, g.marks, g.hash, [], st.v, ns, st.v.records, e);
    StreamsCounted(st.log, g.v0, g.marks, g.hash, [], st.v);
    GrewCalled(st.log, WorldOf([]), g.v0, st.v, ns, st.v.records, e);
    FineMore(st.log, e, g.cfg.watcher);
    next := Story(st.log + [e], st.v.Asked().Streamed(ns, BodiesIn(pieces)), st.turns + 1);
  }

  /** A summary. */
  lemma Compacts(g: Setting, st: Story) returns (next: Story)
    requires Fine(g, st) && Free(st.log, g.cfg.maxTurns)
    ensures Fine(g, next) && Free(next.log, g.cfg.maxTurns) && next.turns == st.turns
  {
    hide Sound, Recounts, Grew, Attentive, PhaseIn, OpenCalls, Events;
    var c := Node(|st.v.nodes|, "", false, CompactionKind, None, false, CompactionBody(StreamStrings.Finished("s"), None));
    var e := Compacted("s", |st.v.trail|);
    EventsMore(st.log, g.cfg.maxTurns, st.turns, e);
    SoundBounds(st.v);
    SoundCompacted(st.v, c);
    OwnCompaction(st.v.trail, c, st.v.foreign, |st.v.nodes|);
    CompactedKeeps(st.log, g.v0, g.marks, g.hash, [], st.v, c, "s");
    GrewCompacted(st.log, WorldOf([]), g.v0, st.v, c, e);
    FineMore(st.log, e, g.cfg.watcher);
    next := Story(st.log + [e], st.v.Compacted(c), st.turns);
  }

  /** The inbox holds these; the watch, which may be asked too, has nothing. */
  lemma Polls(g: Setting, st: Story, e: Event) returns (next: Story)
    requires Fine(g, st) && Free(st.log, g.cfg.maxTurns) && (e.Polled? || e == Watched(None) || e == Taken([]))
    ensures next == Story(st.log + [e], st.v, st.turns) && Fine(g, next)
    ensures PhaseIn(next.log) == Moves(PhaseIn(st.log), e)
  {
    hide Sound, Recounts, Grew, Attentive, PhaseIn, OpenCalls, Events;
    EventsMore(st.log, g.cfg.maxTurns, st.turns, e);
    NotedKeeps(st.log, g.v0, g.marks, g.hash, [], st.v, e);
    GrewNoted(st.log, WorldOf([]), g.v0, st.v, e);
    FineMore(st.log, e, g.cfg.watcher);
    next := Story(st.log + [e], st.v, st.turns);
  }

  const More := Messages.Plain(User, "", "", "more")

  lemma PlainNode(m: Message, v: Ledger) returns (ns: seq<Node>)
    requires m == More || m == WrapUp
    ensures RefsRun(ns, |v.nodes|) && AllAlike(ns, NodesOf(m, v.dialect, v.records))
  {
    var of := NodesOf(m, v.dialect, v.records);
    assert |of| == 1;
    ns := [of[0].(ref := |v.nodes|)];
  }

  /** A message is told, where it may be. */
  lemma Tells(g: Setting, st: Story, m: Message, source: Source) returns (next: Story)
    requires Fine(g, st) && (m == More || m == WrapUp) && Links(Last(st.log), Told(m, source), g.cfg.maxTurns)
    requires source == FromLoop || source == FromInbox([])
    ensures Fine(g, next) && Free(next.log, g.cfg.maxTurns) && next.turns == st.turns
  {
    hide Sound, Recounts, Grew, Attentive, PhaseIn, OpenCalls, Events, NodesOf, RefsRun, Links;
    var ns := PlainNode(m, st.v);
    var e := Event.Told(m, source);
    assert WrapUp != StuckNudge;
    EventsMore(st.log, g.cfg.maxTurns, st.turns, e);
    ToldKeeps(st.v, m, ns);
    MessageKeeps(st.log, g.v0, g.marks, g.hash, [], st.v, m, ns, source);
    SoundBounds(st.v);
    ToldForeign(st.v, m, ns);
    GrewTold(st.log, WorldOf([]), g.v0, st.v, m, ns, e);
    FineMore(st.log, e, g.cfg.watcher);
    next := Story(st.log + [e], st.v.Told(m, ns), st.turns);
  }

  // --- its passes

  /** What comes before the call of a turn: queue, inbox and watch have nothing. */
  lemma Boundary(g: Setting, st: Story) returns (next: Story)
    requires Fine(g, st) && Free(st.log, g.cfg.maxTurns)
    ensures Fine(g, next) && Free(next.log, g.cfg.maxTurns) && next.turns == st.turns && Prepared(PhaseIn(next.log), g.cfg.watcher)
  {
    hide Fine, PhaseIn;
    next := Polls(g, st, Taken([]));
    next := Polls(g, next, Polled([]));
    if g.cfg.watcher {
      next := Polls(g, next, Watched(None));
    }
  }

  /** An answer, while a message waits in the inbox: it is told, and another turn is taken. */
  lemma GoesOn(g: Setting, st: Story) returns (next: Story)
    requires Fine(g, st) && Free(st.log, g.cfg.maxTurns)
    ensures Fine(g, next) && Free(next.log, g.cfg.maxTurns) && next.turns == st.turns
  {
    hide Fine, PhaseIn, Moves;
    next := Polls(g, st, Polled([More]));
    assert [More][1..] == [];
    next := Tells(g, next, More, FromInbox([]));
  }

  /** The turn's call overflows, and a summary makes room. */
  lemma OverflowPass(g: Setting, st: Story, number: nat) returns (next: Story)
    requires Fine(g, st) && Free(st.log, g.cfg.maxTurns) && number > 0 && (g.cfg.maxTurns > 0 ==> number <= g.cfg.maxTurns)
    ensures Fine(g, next) && Free(next.log, g.cfg.maxTurns) && next.turns == st.turns + 1
  {
    hide Fine;
    next := Boundary(g, st);
    next := Calls(g, next, number, false, false);
    next := Compacts(g, next);
  }

  /** A turn that is answered, and another follows. */
  lemma TurnPass(g: Setting, st: Story, number: nat) returns (next: Story)
    requires Fine(g, st) && Free(st.log, g.cfg.maxTurns) && number > 0 && (g.cfg.maxTurns > 0 ==> number < g.cfg.maxTurns)
    ensures Fine(g, next) && Free(next.log, g.cfg.maxTurns) && next.turns == st.turns + 1
  {
    hide Fine;
    next := Boundary(g, st);
    next := Calls(g, next, number, false, true);
    next := GoesOn(g, next);
  }

  /** A silent turn, which the wrap-up call answers, and another follows. */
  lemma WrapUpPass(g: Setting, st: Story, number: nat) returns (next: Story)
    requires Fine(g, st) && Free(st.log, g.cfg.maxTurns) && number > 0 && (g.cfg.maxTurns > 0 ==> number < g.cfg.maxTurns)
    ensures Fine(g, next) && Free(next.log, g.cfg.maxTurns) && next.turns == st.turns + 2
  {
    hide Fine;
    next := Boundary(g, st);
    next := Calls(g, next, number, false, false);
    next := Tells(g, next, WrapUp, FromLoop);
    next := Calls(g, next, number + 1, true, true);
    next := GoesOn(g, next);
  }

  /** The turn that ends the run with its answer. */
  lemma LastPass(g: Setting, st: Story, number: nat) returns (next: Story)
    requires Fine(g, st) && Free(st.log, g.cfg.maxTurns) && number > 0 && (g.cfg.maxTurns > 0 ==> number <= g.cfg.maxTurns)
    ensures Fine(g, next) && next.turns == st.turns + 1
  {
    hide Fine;
    next := Boundary(g, st);
    next := Calls(g, next, number, false, true);
  }

  // --- whole runs

  /** A finished run: events, passes and calls agree, and the session is left as RunOn leaves it. */
  ghost predicate RunOf(g: Setting, w: World, d: Diary, v: Ledger) {
    && Keeps(g.cfg, w, d) && Leaves(w, g.v0, g.marks, g.hash, d, v) && P.LastIs(d.passes, P.Ended)
    && Sound(v) && v.Open() == Some({})
  }

  lemma Finished(g: Setting, st: Story, passes: seq<P.Pass>) returns (w: World, d: Diary)
    requires Fine(g, st) && P.Legal(LimitsOf(g.cfg), passes) && P.Sum(passes) == st.turns && P.LastIs(passes, P.Ended)
    ensures RunOf(g, w, d, st.v) && RunRecords.Calls(d.log) == st.turns && d.passes == passes
  {
    hide Sound, Recounts, Grew, Attentive, PhaseIn, Headed, Carries, OpenCalls, WithinCap, Chained, StuckRules, P.Legal, P.Sum, P.LastIs, FlatMap;
    w := WorldOf(st.log);
    d := Diary(st.log, g.marks, [], [], passes);
    WorldAnswers(st.log);
    GrewAlike(st.log, WorldOf([]), w, g.v0, st.v);
    RecountsCarries(st.log, g.v0, g.marks, g.hash, [], st.v);
    RunIsHeaded(st.log, w, g.v0, st.v);
    SoundBounds(st.v);
    SettledAnswersAll(st.v.trail, st.v.foreign);
    SameMarks(g.marks, |g.v0.nodes|);
  }

  /** n turns of one call each. */
  lemma {:induction false} PlainTurns(g: Setting, st: Story, before: seq<P.Pass>, n: nat) returns (next: Story)
    requires Fine(g, st) && Free(st.log, g.cfg.maxTurns) && P.TurnOf(before) + n < g.cfg.maxTurns
    requires P.Legal(LimitsOf(g.cfg), before) && !P.LastIs(before, P.Ended) && P.Sum(before) == st.turns
    ensures Fine(g, next) && Free(next.log, g.cfg.maxTurns) && P.Sum(P.Plain(before, n)) == next.turns
  {
    hide Fine, Free, P.Legal, P.Sum, P.TurnOf;
    if n == 0 {
      next := st;
    } else {
      next := PlainTurns(g, st, before, n - 1);
      next := TurnPass(g, next, P.TurnOf(before) + n);
      P.PlainLegal(LimitsOf(g.cfg), before, n - 1);
      P.PlainLegal(LimitsOf(g.cfg), before, n);
    }
  }

  /** A run of one call more than the cap, from any session at rest, when the configuration allows an overflow or a
      wrap-up. */
  lemma OneTooManyRun(g: Setting) returns (w: World, d: Diary, v: Ledger)
    requires Rested(g) && g.cfg.maxTurns > 0 && (g.cfg.autoCompact > 0.0 || (g.cfg.maxTurns > 1 && g.cfg.tools != []))
    ensures RunOf(g, w, d, v) && RunRecords.Calls(d.log) == g.cfg.maxTurns + 1 && d.passes == P.OneTooMany(LimitsOf(g.cfg))
  {
    hide Fine, RunOf, P.Legal, P.Sum, P.TurnOf, P.Allowed;
    var l, N := LimitsOf(g.cfg), g.cfg.maxTurns;
    var st := Begins(g);
    var first := if l.compacts then P.Pass(P.Overflowed, 1) else P.Pass(P.Turned, 2);
    FirstAllowed(l, first);
    P.FirstLegal(l, first);
    if l.compacts {
      st := OverflowPass(g, st, 1);
    } else {
      st := WrapUpPass(g, st, 1);
    }
    var n: nat := if l.compacts then N - 1 else N - 2;
    st := PlainTurns(g, st, [first], n);
    st := LastPass(g, st, N);
    P.OneTooManyLegal(l);
    P.PlainLegal(l, [first], n);
    v := st.v;
    w, d := Finished(g, st, P.OneTooMany(l));
  }

  lemma FirstAllowed(l: P.Limits, p: P.Pass)
    requires l.maxTurns > 0
    requires if l.compacts then p == P.Pass(P.Overflowed, 1) else l.maxTurns > 1 && l.tools && p == P.Pass(P.Turned, 2)
    ensures P.Allowed(l, [], p)
  {
  }

  /** n turns, each of which overflows once and wraps up. */
  lemma {:induction false} BusyTurns(g: Setting, n: nat) returns (next: Story)
    requires Rested(g) && n < g.cfg.maxTurns && g.cfg.autoCompact > 0.0 && g.cfg.tools != []
    ensures Fine(g, next) && Free(next.log, g.cfg.maxTurns) && next.turns == 3 * n
  {
    hide Fine, Rested;
    if n == 0 {
      next := Begins(g);
    } else {
      next := BusyTurns(g, n - 1);
      next := OverflowPass(g, next, n);
      next := WrapUpPass(g, next, n);
    }
  }

  /** A run of 3N - 1 calls under a cap of N. */
  lemma BoundIsReachedRun(g: Setting) returns (w: World, d: Diary, v: Ledger)
    requires Rested(g) && g.cfg.maxTurns > 0 && g.cfg.autoCompact > 0.0 && g.cfg.tools != []
    ensures RunOf(g, w, d, v) && RunRecords.Calls(d.log) == 3 * g.cfg.maxTurns - 1
  {
    hide Fine, RunOf, P.Legal, P.Sum, P.TurnOf, P.Allowed;
    var n := g.cfg.maxTurns - 1;
    var st := BusyTurns(g, n);
    st := OverflowPass(g, st, g.cfg.maxTurns);
    st := LastPass(g, st, g.cfg.maxTurns);
    P.BusyEnds(LimitsOf(g.cfg));
    v := st.v;
    w, d := Finished(g, st, P.BusyRun(LimitsOf(g.cfg)));
  }

  /** From a session at rest, the cap on turns caps the calls of every run exactly when auto-compaction is off and there
      are no tools, or only one turn. */
  lemma CapHoldsForRuns(g: Setting)
    requires Rested(g) && g.cfg.maxTurns > 0
    ensures (forall w, d, v :: RunOf(g, w, d, v) ==> RunRecords.Calls(d.log) <= g.cfg.maxTurns)
            <==> g.cfg.autoCompact <= 0.0 && (g.cfg.maxTurns == 1 || g.cfg.tools == [])
  {
    hide Keeps, Leaves, Rested, RunRecords.Calls;
    if g.cfg.autoCompact <= 0.0 && (g.cfg.maxTurns == 1 || g.cfg.tools == []) {
      forall w, d, v | RunOf(g, w, d, v) ensures RunRecords.Calls(d.log) <= g.cfg.maxTurns {
        CallsBounded(g.cfg, w, d);
      }
    } else {
      var w, d, v := OneTooManyRun(g);
      assert RunOf(g, w, d, v);
    }
  }
}
