/** What each step of a run keeps: of the record, and of what the run writes down (internal/loop/run_loop.go). */
module RunSteps {
  import opened Wrappers
  import opened Lists
  import opened Messages
  import opened Nodes
  import opened Convert
  import opened Protocol
  import opened Ledgers
  import opened Sessions
  import opened Fingerprints
  import opened RunRecords
  import opened RunTurns
  import opened RunAnswers
  import opened RunPhases
  import Dedup
  import StreamStrings

  // --- the events among themselves

  /** Every call is counted and within the cap, repeats are noticed, nothing that was called for is left out, all
      answers are the world's, and what was drained was told. */
  predicate Orderly(log: seq<Event>, maxTurns: int, turns: nat, repeats: nat, lastBatch: string, w: World, drained: seq<Message>, newest: Newest, phase: Phase, watcher: bool) {
    && Counted(log, maxTurns, turns) && Stuck(log, repeats, lastBatch)
    && Chained(log, maxTurns) && Follows(log, w) && drained == FlatMap(QueuedIn, log) && newest == NewestIn(log)
    && phase == PhaseIn(log) && Attentive(log, watcher)
  }

  lemma OrderlyAtFirst(maxTurns: int, w: World, watcher: bool)
    ensures Orderly([], maxTurns, 0, 0, "", w, [], Newest(None, None), AtFirst, watcher) && !NudgeDue([], 0) && Free([], maxTurns)
  {
  }

  /** The event e may come next. */
  predicate MayCome(log: seq<Event>, maxTurns: int, w: World, e: Event) {
    WithinCap(e, maxTurns) && Links(Last(log), e, maxTurns) && FollowsAt(log + [e], |log|, w)
  }

  lemma OrderlyMore(log: seq<Event>, maxTurns: int, turns: nat, repeats: nat, lastBatch: string, w: World, drained: seq<Message>, newest: Newest, phase: Phase, watcher: bool, e: Event)
    requires Orderly(log, maxTurns, turns, repeats, lastBatch, w, drained, newest, phase, watcher) && MayCome(log, maxTurns, w, e)
    requires Attends(phase, e, watcher)
    requires !e.Batch? && (IsNudge(e) <==> NudgeDue(log, repeats)) && (e.Ran? ==> repeats < StuckFailAt)
    ensures Orderly(log + [e], maxTurns, if e.Called? then turns + 1 else turns, repeats, lastBatch, w, drained + QueuedIn(e), Hears(newest, e), Moves(phase, e), watcher)
  {
    hide Counted, Stuck, Chained, Follows, WithinCap, Links, FollowsAt, FlatMap, QueuedIn, IsNudge, NewestIn, Hears, PhaseIn, Moves, Attends, Attentive;
    CountedMore(log, maxTurns, turns, e);
    StuckOther(log, repeats, lastBatch, e);
    ChainedMore(log, maxTurns, e);
    FollowsMore(log, w, e);
    FlatMapSnoc(QueuedIn, log, e);
    NewestMore(log, e);
    PhaseMore(log, e);
    AttentiveMore(log, e, watcher);
  }

  /** A call or a summary. */
  lemma OrderlyHeard(log: seq<Event>, maxTurns: int, turns: nat, repeats: nat, lastBatch: string, w: World, drained: seq<Message>, newest: Newest, phase: Phase, watcher: bool, e: Event)
    requires Orderly(log, maxTurns, turns, repeats, lastBatch, w, drained, newest, phase, watcher) && MayCome(log, maxTurns, w, e)
    requires !NudgeDue(log, repeats) && (e.Called? || e.Compacted?) && Attends(phase, e, watcher)
    ensures Orderly(log + [e], maxTurns, if e.Called? then turns + 1 else turns, repeats, lastBatch, w, drained, Hears(newest, e), Moves(phase, e), watcher)
    ensures !NudgeDue(log + [e], repeats) && (e.Compacted? ==> Free(log + [e], maxTurns))
  {
    hide Orderly, MayCome;
    OrderlyMore(log, maxTurns, turns, repeats, lastBatch, w, drained, newest, phase, watcher, e);
    assert drained + QueuedIn(e) == drained;
  }

  lemma OrderlyBatch(log: seq<Event>, maxTurns: int, turns: nat, repeats: nat, lastBatch: string, w: World, drained: seq<Message>, newest: Newest, phase: Phase, watcher: bool,
                     calls: seq<ToolCall>, refused: map<string, ToolOutput>)
    requires Orderly(log, maxTurns, turns, repeats, lastBatch, w, drained, newest, phase, watcher) && calls != [] && !NudgeDue(log, repeats)
    requires log != [] && Meets(log[|log| - 1], Batch(calls, refused)) && phase.owed == []
    ensures Orderly(log + [Batch(calls, refused)], maxTurns, turns,
                    if Fingerprint(calls) == lastBatch then repeats + 1 else 1, Fingerprint(calls), w, drained, newest, phase, watcher)
    ensures !NudgeDue(log + [Batch(calls, refused)], if Fingerprint(calls) == lastBatch then repeats + 1 else 1)
  {
    hide Counted, Stuck, Chained, Follows, FlatMap, Fingerprint, NewestIn, PhaseIn, Attentive;
    var e := Batch(calls, refused);
    CountedMore(log, maxTurns, turns, e);
    StuckBatch(log, repeats, lastBatch, calls, refused);
    BatchMay(log, maxTurns, w, calls, refused);
    ChainedMore(log, maxTurns, e);
    FollowsMore(log, w, e);
    FlatMapSnoc(QueuedIn, log, e);
    NewestMore(log, e);
    PhaseMore(log, e);
    AttentiveMore(log, e, watcher);
  }

  lemma BatchMay(log: seq<Event>, maxTurns: int, w: World, calls: seq<ToolCall>, refused: map<string, ToolOutput>)
    requires log != [] && Meets(log[|log| - 1], Batch(calls, refused))
    ensures MayCome(log, maxTurns, w, Batch(calls, refused))
  {
  }

  // --- the events and the record

  /** What a log says of the state v, reached from v0: the newest prompt is what was sent, markers are backed, results
      are shown and none is made up, and everything that joined is in the log. */
  ghost predicate Recounts(log: seq<Event>, v0: Ledger, marks: map<Ref, Dedup.Key>, hash: string -> string, keys: seq<string>, v: Ledger) {
    && Prompted(log, v) && Backed(v, marks, hash, keys) && AllShown(log, v0, v, marks, hash)
    && Genuine(log, |v0.trail|, v, marks, hash) && Tied(log, v0, v)
  }

  lemma RecountsAtFirst(v: Ledger, marks: map<Ref, Dedup.Key>, hash: string -> string)
    requires Backed(v, marks, hash, [])
    ensures Recounts([], v, marks, hash, [], v)
  {
    hide Backed, Tied;
    TiedAtFirst(v);
  }

  lemma KeysForgotten(log: seq<Event>, v0: Ledger, marks: map<Ref, Dedup.Key>, hash: string -> string, keys: seq<string>, v: Ledger)
    requires Recounts(log, v0, marks, hash, keys, v)
    ensures Recounts(log, v0, marks, hash, [], v) && Backed(v, marks, hash, [])
  {
    hide Prompted, Backed, AllShown, Genuine, Tied;
    BackedFewer(v, marks, hash, keys, []);
  }

  predicate NoResults(ns: seq<Node>) {
    forall i :: 0 <= i < |ns| ==> !RealResult(ns[i])
  }

  lemma SameMarks(marks: map<Ref, Dedup.Key>, n: nat)
    ensures MarksGrow(marks, marks, n)
  {
  }

  lemma GrownBodies(a: Ledger, b: Ledger, ns: seq<Node>)
    requires b.nodes == a.nodes + ns && b.trail == a.trail + ns && a.streams <= b.streams && SameForeign(a, b)
    ensures SameBodies(a, b)
  {
  }

  lemma GenuineGrown(log: seq<Event>, more: seq<Event>, n: nat, a: Ledger, b: Ledger, ns: seq<Node>, marks: map<Ref, Dedup.Key>, hash: string -> string)
    requires Genuine(log, n, a, marks, hash) && log <= more && b.trail == a.trail + ns && b.nodes == a.nodes + ns
    requires a.streams <= b.streams && SameForeign(a, b)
    requires forall i :: 0 <= i < |ns| ==> !RealResult(ns[i]) || ns[i].ref in b.foreign
    ensures Genuine(more, n, b, marks, hash)
  {
    hide GenuineAt, Genuine, RealResult, SameBodies;
    GrownBodies(a, b, ns);
    SameMarks(marks, |a.nodes|);
    GenuineStill(log, more, n, a, b, marks, marks, hash);
  }

  /** Nodes that join with no event leave all of it as it was. */
  lemma StepKeeps(log: seq<Event>, v0: Ledger, marks: map<Ref, Dedup.Key>, hash: string -> string, keys: seq<string>, a: Ledger, ns: seq<Node>)
    requires Recounts(log, v0, marks, hash, keys, a) && Sound(a) && RefsRun(ns, |a.nodes|) && NoResults(ns)
    ensures Onward(a, a.Grown(ns, a.records)) && Recounts(log, v0, marks, hash, keys, a.Grown(ns, a.records))
  {
    hide Sound, Backed, AllShown, Genuine, Tied, PromptsGrow, LastPrompt, Flatten;
    SoundBounds(a);
    var b := a.Grown(ns, a.records);
    assert b.trail[b.start..b.sent] == a.trail[a.start..a.sent];
    BackedGrown(a, b, ns, marks, hash, keys);
    ShownGrown(log, v0, a, b, ns, marks, hash);
    GenuineGrown(log, log, |v0.trail|, a, b, ns, marks, hash);
    SentStaysGrown(a, b, ns);
    TiedOnward(log, v0, a, b);
  }

  lemma BackedGrown(a: Ledger, b: Ledger, ns: seq<Node>, marks: map<Ref, Dedup.Key>, hash: string -> string, keys: seq<string>)
    requires Backed(a, marks, hash, keys) && b.nodes == a.nodes + ns && b.trail == a.trail + ns && b.start == a.start && RefsRun(ns, |a.nodes|)
    ensures Backed(b, marks, hash, keys)
  {
    hide Backed;
    BackedStill(a, b, marks, hash, keys);
  }

  lemma ShownGrown(log: seq<Event>, v0: Ledger, a: Ledger, b: Ledger, ns: seq<Node>, marks: map<Ref, Dedup.Key>, hash: string -> string)
    requires AllShown(log, v0, a, marks, hash) && b.nodes == a.nodes + ns && b.trail == a.trail + ns
    requires a.streams <= b.streams && SameForeign(a, b)
    ensures AllShown(log, v0, b, marks, hash)
  {
    hide AllShown, SameBodies;
    GrownBodies(a, b, ns);
    SameMarks(marks, |a.nodes|);
    AllShownStill(log, v0, a, b, marks, marks, hash);
  }

  lemma SentStaysGrown(a: Ledger, b: Ledger, ns: seq<Node>)
    requires a.sent <= |a.trail| && b.trail == a.trail + ns && b.sent == a.sent && b.streams == a.streams && a.foreign <= b.foreign
    ensures SentStays(a, b)
  {
  }

  lemma NotRan(log: seq<Event>, v0: Ledger, v: Ledger, marks: map<Ref, Dedup.Key>, hash: string -> string, e: Event)
    requires AllShown(log, v0, v, marks, hash) && !e.Recorded?
    ensures AllShown(log + [e], v0, v, marks, hash)
  {
    hide AllShown;
    AllShownMore(log, v0, v, marks, hash, e);
  }

  lemma GenuineMore(log: seq<Event>, n: nat, v: Ledger, marks: map<Ref, Dedup.Key>, hash: string -> string, e: Event)
    requires Genuine(log, n, v, marks, hash)
    ensures Genuine(log + [e], n, v, marks, hash)
  {
    hide Genuine, RealResult;
    GenuineGrown(log, log + [e], n, v, v.(nodes := v.nodes + [], trail := v.trail + []), [], marks, hash);
    assert v.nodes + [] == v.nodes && v.trail + [] == v.trail;
  }

  /** A message is told. */
  lemma MessageKeeps(log: seq<Event>, v0: Ledger, marks: map<Ref, Dedup.Key>, hash: string -> string, keys: seq<string>, a: Ledger, m: Message, ns: seq<Node>, source: Source)
    requires Recounts(log, v0, marks, hash, keys, a) && Sound(a) && RefsRun(ns, |a.nodes|)
    ensures Onward(a, a.Told(m, ns)) && Recounts(log + [Told(m, source)], v0, marks, hash, keys, a.Told(m, ns))
  {
    hide Sound, Backed, AllShown, Genuine, Tied, PromptsGrow, LastPrompt, Flatten, NodeRefs, RealResult, Elems;
    SoundBounds(a);
    var b, e := a.Told(m, ns), Event.Told(m, source);
    assert b.trail[b.start..b.sent] == a.trail[a.start..a.sent];
    PromptsGrowOther(log, e);
    BackedGrown(a, b, ns, marks, hash, keys);
    ToldForeign(a, m, ns);
    ShownGrown(log, v0, a, b, ns, marks, hash);
    NotRan(log, v0, b, marks, hash, e);
    RefsForeign(ns, a.foreign);
    GenuineGrown(log, log + [e], |v0.trail|, a, b, ns, marks, hash);
    TiedTold(log, v0, a, m, ns, source);
  }

  /** What a message brings was not there before. */
  lemma ToldForeign(a: Ledger, m: Message, ns: seq<Node>)
    requires RefsBelow(a.trail, |a.nodes|) && RefsRun(ns, |a.nodes|)
    ensures SameForeign(a, a.Told(m, ns))
  {
    forall r | r in Elems(NodeRefs(ns)) ensures r >= |a.nodes| {
      var i :| 0 <= i < |ns| && NodeRefs(ns)[i] == r;
    }
  }

  lemma RefsForeign(ns: seq<Node>, foreign: set<Ref>)
    ensures forall i :: 0 <= i < |ns| ==> ns[i].ref in foreign + Elems(NodeRefs(ns))
  {
    forall i | 0 <= i < |ns| ensures ns[i].ref in Elems(NodeRefs(ns)) {
      assert NodeRefs(ns)[i] == ns[i].ref;
    }
  }

  /** An event that changes nothing on the record. */
  lemma NotedKeeps(log: seq<Event>, v0: Ledger, marks: map<Ref, Dedup.Key>, hash: string -> string, keys: seq<string>, v: Ledger, e: Event)
    requires Recounts(log, v0, marks, hash, keys, v) && Sound(v) && !e.Called? && !e.Told? && !e.Compacted?
    requires e.Recorded? ==> LastShown(log, v0, v, marks, hash)
    ensures Recounts(log + [e], v0, marks, hash, keys, v)
  {
    hide Sound, Backed, AllShown, Genuine, Tied, PromptsGrow, LastPrompt, Flatten, LastShown;
    SoundBounds(v);
    PromptsGrowOther(log, e);
    AllShownMore(log, v0, v, marks, hash, e);
    GenuineMore(log, |v0.trail|, v, marks, hash, e);
    TiedOther(log, v0, v, e);
  }

  /** The window starts anew with a summary. */
  lemma CompactedKeeps(log: seq<Event>, v0: Ledger, marks: map<Ref, Dedup.Key>, hash: string -> string, keys: seq<string>, a: Ledger, c: Node, summary: string)
    requires Recounts(log, v0, marks, hash, keys, a) && Sound(a) && c.ref == |a.nodes| && c.kind == CompactionKind
    requires c.body.CompactionBody? && c.body.summary == StreamStrings.Finished(summary)
    ensures Recounts(log + [Compacted(summary, |a.trail|)], v0, marks, hash, [], a.Compacted(c))
  {
    hide Sound, Backed, AllShown, Genuine, Tied, PromptsGrow, LastPrompt, Flatten, StreamStrings.Finished;
    SoundBounds(a);
    var b, e := a.Compacted(c), Event.Compacted(summary, |a.trail|);
    PromptsGrowOther(log, e);
    BackedCompacted(a, c, marks, hash, keys);
    ShownGrown(log, v0, a, b, [c], marks, hash);
    NotRan(log, v0, b, marks, hash, e);
    NotReal(c);
    GenuineGrown(log, log + [e], |v0.trail|, a, b, [c], marks, hash);
    TiedCompacted(log, v0, a, c, e);
  }

  lemma NotReal(n: Node)
    ensures !n.body.ToolResultBody? ==> !RealResult(n)
  {
  }

  /** A call was sent the window, and what it streamed joined. */
  lemma CalledKeeps(log: seq<Event>, v0: Ledger, marks: map<Ref, Dedup.Key>, hash: string -> string, keys: seq<string>, a: Ledger, ns: seq<Node>, rec: nat, e: Event)
    requires Recounts(log, v0, marks, hash, keys, a) && Sound(a) && RefsRun(ns, |a.nodes|) && AllOfCall(ns, rec)
    requires a.start <= |a.trail| && e.Called? && e.prompt == a.Window() && a.Open() == Some({})
    ensures Recounts(log + [e], v0, marks, hash, keys, a.Asked().Streamed(ns, BodiesIn(e.pieces)))
  {
    hide Sound, Backed, AllShown, Genuine, Tied, PromptsGrow, LastPrompt, Flatten, BodiesIn, RealResult, AllOfCall;
    hide Prompted, OpenCalls, AllAnswered;
    SoundBounds(a);
    SettledAnswersAll(a.trail, a.foreign);
    var b := a.Asked().Streamed(ns, BodiesIn(e.pieces));
    PromptedCalled(log, a, e);
    PromptedStreamed(log + [e], a.Asked(), ns, BodiesIn(e.pieces));
    BackedGrown(a, b, ns, marks, hash, keys);
    ShownGrown(log, v0, a, b, ns, marks, hash);
    NotRan(log, v0, b, marks, hash, e);
    StreamedNoResults(ns, rec);
    GenuineGrown(log, log + [e], |v0.trail|, a, b, ns, marks, hash);
    TiedCalled(log, v0, a, ns, e);
  }

  lemma PromptedStreamed(log: seq<Event>, a: Ledger, ns: seq<Node>, bodies: seq<Body>)
    requires Prompted(log, a)
    ensures Prompted(log, a.Streamed(ns, bodies))
  {
    hide PromptsGrow, LastPrompt, Flatten;
    if LastPrompt(log).Some? {
      assert (a.trail + ns)[a.start..a.sent] == a.trail[a.start..a.sent];
    }
  }

  lemma StreamedNoResults(ns: seq<Node>, rec: nat)
    requires AllOfCall(ns, rec)
    ensures NoResults(ns)
  {
    forall i | 0 <= i < |ns| ensures !RealResult(ns[i]) {
      assert OfCall(ns[i], rec);
    }
  }

  // --- results

  /** The result r of the k-th call of the batch that just ran joins; what it shows holds with the marks as they are
      after it. */
  lemma ResultKeeps(log: seq<Event>, v0: Ledger, was: map<Ref, Dedup.Key>, marks: map<Ref, Dedup.Key>, hash: string -> string,
                    keys: seq<string>, later: seq<string>, a: Ledger, r: Node, k: nat)
    requires Recounts(log, v0, was, hash, keys, a) && Sound(a) && r.ref == |a.nodes| && MarksGrow(was, marks, |a.nodes|)
    requires Backed(a.Grown([r], a.records), marks, hash, later)
    requires log != [] && Shows(log[|log| - 1], k, r, marks, hash)
    ensures Onward(a, a.Grown([r], a.records)) && Recounts(log, v0, marks, hash, later, a.Grown([r], a.records))
  {
    hide Sound, Backed, AllShown, Tied, PromptsGrow, LastPrompt, Flatten, MarksGrow, Shows, SameBodies, Genuine;
    hide GenuineAt;
    SoundBounds(a);
    var b := a.Grown([r], a.records);
    assert b.trail[b.start..b.sent] == a.trail[a.start..a.sent];
    GrownBodies(a, b, [r]);
    AllShownStill(log, v0, a, b, was, marks, hash);
    assert GenuineAt(log, r, marks, hash) by {
      ShowsGenuine(log, r, k, marks, hash);
    }
    GenuineStill(log, log, |v0.trail|, a, b, was, marks, hash);
    SentStaysGrown(a, b, [r]);
    TiedOnward(log, v0, a, b);
  }

  lemma ShowsGenuine(log: seq<Event>, r: Node, k: nat, marks: map<Ref, Dedup.Key>, hash: string -> string)
    requires log != [] && Shows(log[|log| - 1], k, r, marks, hash)
    ensures GenuineAt(log, r, marks, hash)
  {
  }

  // --- a replaced batch

  lemma ReplaceSound(v: Ledger, ns: seq<Node>, rec: nat, ms: seq<Node>, calls: seq<ToolCall>)
    requires Sound(v) && TurnOpen(v, ns, rec) && v.Open() == Some(Elems(LiveRefs(ns))) && RefsWithin(NodeRefs(ns), |v.nodes|)
    requires |ms| == |calls| && Makes(ms, calls, LastCall(v.nodes, LiveAmong(v.nodes, NodeRefs(ns)))) && RefsRun(ms, |v.nodes|)
    ensures var S := Elems(LiveAmong(v.nodes, NodeRefs(ns)));
            var w := v.Without(S).Grown(ms, v.records);
            MayMark(v, S) && Sound(w) && w.Carried() == v.Carried() && BatchOpen(w, NodeRefs(ms), calls, 0)
  {
    hide Sound, OpenCalls, OwnCalls, BatchOpen, Makes, LiveAmong, LastCall, Mark, Elems, AllOfCall, MayMark;
    SoundBounds(v);
    SupersededTurn(v, ns, rec);
    ReplacedRecord(v, ns, rec);
    var u := v.Without(Elems(LiveAmong(v.nodes, NodeRefs(ns))));
    MayTextOnward(v, u, rec);
    ReplacedBatch(u, ms, calls, LastCall(v.nodes, LiveAmong(v.nodes, NodeRefs(ns))));
  }

  lemma WithoutBodies(v: Ledger, S: set<Ref>)
    ensures SameBodies(v, v.Without(S)) && Continues(v, v.Without(S))
  {
  }

  lemma WithoutSent(v: Ledger, S: set<Ref>)
    requires MayMark(v, S) && v.sent <= |v.trail|
    ensures SentStays(v, v.Without(S))
  {
    assert Mark(v.trail, S)[..v.sent] == v.trail[..v.sent];
  }

  lemma PromptedSame(log: seq<Event>, a: Ledger, b: Ledger)
    requires Prompted(log, a) && a.start <= a.sent <= |a.trail| && b.start <= b.sent <= |b.trail| && b.Carried() == a.Carried()
    ensures Prompted(log, b)
  {
  }

  /** The calls of S leave the wire. */
  lemma WithoutKeeps(log: seq<Event>, v0: Ledger, marks: map<Ref, Dedup.Key>, hash: string -> string, keys: seq<string>, v: Ledger, S: set<Ref>)
    requires Recounts(log, v0, marks, hash, keys, v) && Sound(v) && MayMark(v, S)
    ensures Recounts(log, v0, marks, hash, keys, v.Without(S))
  {
    hide Sound, Backed, AllShown, Tied, Prompted, Flatten, SameBodies, Genuine, Continues, MayMark, SentStays, Mark;
    SoundBounds(v);
    SoundWithout(v, S);
    WithoutBodies(v, S);
    WithoutSent(v, S);
    SameMarks(marks, |v.nodes|);
    PromptedSame(log, v, v.Without(S));
    assert |v.Without(S).trail| == |v.trail|;
    BackedStill(v, v.Without(S), marks, hash, keys);
    AllShownStill(log, v0, v, v.Without(S), marks, marks, hash);
    GenuineStill(log, log, |v0.trail|, v, v.Without(S), marks, marks, hash);
    TiedOnward(log, v0, v, v.Without(S));
  }

  lemma MadeNoResults(ms: seq<Node>, calls: seq<ToolCall>, rec: Option<nat>)
    requires |ms| == |calls| && Makes(ms, calls, rec)
    ensures NoResults(ms)
  {
    forall i | 0 <= i < |ms| ensures !RealResult(ms[i]) {
      assert Alike(ms[i], Fresh("", "", rec, ToolCallBody(calls[i].id, calls[i].name, Finished(calls[i].arguments))));
    }
  }

  lemma ReplaceKeeps(log: seq<Event>, v0: Ledger, marks: map<Ref, Dedup.Key>, hash: string -> string, keys: seq<string>,
                     v: Ledger, ns: seq<Node>, rec: nat, ms: seq<Node>, calls: seq<ToolCall>)
    requires Sound(v) && Recounts(log, v0, marks, hash, keys, v)
    requires TurnOpen(v, ns, rec) && v.Open() == Some(Elems(LiveRefs(ns))) && RefsWithin(NodeRefs(ns), |v.nodes|)
    requires |ms| == |calls| && Makes(ms, calls, LastCall(v.nodes, LiveAmong(v.nodes, NodeRefs(ns)))) && RefsRun(ms, |v.nodes|)
    ensures var w := v.Without(Elems(LiveAmong(v.nodes, NodeRefs(ns)))).Grown(ms, v.records);
            Sound(w) && Recounts(log, v0, marks, hash, keys, w) && BatchOpen(w, NodeRefs(ms), calls, 0)
  {
    hide Sound, Recounts, OpenCalls, TurnOpen, BatchOpen, Makes, LiveAmong, LastCall, MayMark, Mark, Elems;
    hide NoResults, Flatten;
    ReplaceSound(v, ns, rec, ms, calls);
    var S := Elems(LiveAmong(v.nodes, NodeRefs(ns)));
    WithoutKeeps(log, v0, marks, hash, keys, v, S);
    SoundWithout(v, S);
    MadeNoResults(ms, calls, LastCall(v.nodes, LiveAmong(v.nodes, NodeRefs(ns))));
    assert |Mark(v.nodes, S)| == |v.nodes|;
    StepKeeps(log, v0, marks, hash, keys, v.Without(S), ms);
  }

  // --- what a recorded output leaves

  /** What the deduper made of an output: a marker when it held the key, else the output itself, its key now the newest. */
  predicate Condensed(shown: seq<string>, keys: seq<string>, hash: string -> string, tool: Option<Tool>, output: ToolOutput, content: string, deduped: bool) {
    if deduped then
      && tool.Some? && !output.isError && keys == shown && Dedup.MarkerHead(tool.value.name) <= content
      && Dedup.Text(Dedup.Key(tool.value.name, hash(output.content))) in shown
    else
      && content == output.content
      && (keys == shown || (tool.Some? && !output.isError
                            && keys == Dedup.Newest(shown + [Dedup.Text(Dedup.Key(tool.value.name, hash(output.content)))])))
  }

  lemma RecordHolds(nodes: seq<Node>, r: Node, c: Ref, callId: string, output: string, tool: string)
    requires Records(r, c, callId, output, false, "") && c < |nodes| && nodes[c].body.ToolCallBody? && nodes[c].body.name == tool
    ensures Holding(nodes, r.body, tool, output)
  {
  }

  lemma NewestKeeps(v: Ledger, marks: map<Ref, Dedup.Key>, hash: string -> string, keys: seq<string>)
    requires Backed(v, marks, hash, keys)
    ensures Backed(v, marks, hash, Dedup.Newest(keys))
  {
    BackedFewer(v, marks, hash, keys, Dedup.Newest(keys));
  }

  lemma NotMarked(v: Ledger, marks: map<Ref, Dedup.Key>, hash: string -> string, keys: seq<string>, r: nat)
    requires Backed(v, marks, hash, keys) && r >= |v.nodes|
    ensures r !in marks
  {
  }

  /** The marks after the result r of an output joined. */
  function MarksAfter(marks: map<Ref, Dedup.Key>, r: Ref, deduped: bool, tool: string, digest: string): map<Ref, Dedup.Key> {
    if deduped then marks[r := Dedup.Key(tool, digest)] else marks
  }

  lemma MarksAfterGrow(marks: map<Ref, Dedup.Key>, r: Ref, deduped: bool, tool: string, digest: string)
    requires r !in marks
    ensures MarksGrow(marks, MarksAfter(marks, r, deduped, tool, digest), r)
  {
  }

  lemma RecordShows(r: Node, c: Ref, callId: string, tool: string, output: ToolOutput, content: string, deduped: bool, marks: map<Ref, Dedup.Key>, hash: string -> string)
    requires Records(r, c, callId, content, output.isError, "") && r.ref !in marks
    requires if deduped then !output.isError && Dedup.MarkerHead(tool) <= content else content == output.content
    ensures ShowsOutput(r, c, tool, output, MarksAfter(marks, r.ref, deduped, tool, hash(output.content)), hash)
  {
    hide Dedup.MarkerHead;
  }

  lemma ResultBacked(v: Ledger, r: Node, c: Ref, tool: Option<Tool>, name: string, output: ToolOutput, content: string, deduped: bool,
                     marks: map<Ref, Dedup.Key>, hash: string -> string, shown: seq<string>, keys: seq<string>)
    requires Backed(v, marks, hash, shown) && v.start <= |v.trail| && RefsBelow(v.trail, |v.nodes|) && Dedup.Digest(hash)
    requires c < |v.nodes| && v.nodes[c].body.ToolCallBody? && v.nodes[c].body.name == name && (tool.Some? ==> tool.value.name == name)
    requires Condensed(shown, keys, hash, tool, output, content, deduped)
    requires r.ref == |v.nodes| && Records(r, c, v.nodes[c].body.callId, content, output.isError, "")
    ensures Backed(v.Grown([r], v.records), MarksAfter(marks, r.ref, deduped, name, hash(output.content)), hash, keys)
  {
    hide Backed, Records, Dedup.Newest, Dedup.Text, Dedup.MarkerHead, RefsBelow;
    var b := v.Grown([r], v.records);
    if deduped {
      BackedMarker(v, r, marks, hash, shown, Dedup.Key(name, hash(output.content)));
    } else {
      BackedGrown(v, b, [r], marks, hash, shown);
      if keys != shown {
        RecordHolds(v.nodes, r, c, v.nodes[c].body.callId, output.content, name);
        BackedFirst(v, r, marks, hash, shown, name, output.content);
        NewestKeeps(b, marks, hash, shown + [Dedup.Text(Dedup.Key(name, hash(output.content)))]);
      }
    }
  }

  /** Everything a recorded result keeps. */
  lemma PutKeeps(log: seq<Event>, v0: Ledger, marks: map<Ref, Dedup.Key>, hash: string -> string, shown: seq<string>, keys: seq<string>,
                 v: Ledger, r: Node, c: Ref, tool: Option<Tool>, calls: seq<ToolCall>, outputs: seq<ToolOutput>, i: nat, content: string, deduped: bool)
    requires Recounts(log, v0, marks, hash, shown, v) && Sound(v) && Dedup.Digest(hash)
    requires RanLast(log, calls, outputs) && i < |calls| && i < |outputs|
    requires c < |v.nodes| && v.nodes[c].body.ToolCallBody? && v.nodes[c].body.name == calls[i].name && (tool.Some? ==> tool.value.name == calls[i].name)
    requires Condensed(shown, keys, hash, tool, outputs[i], content, deduped)
    requires r.ref == |v.nodes| && Records(r, c, v.nodes[c].body.callId, content, outputs[i].isError, "")
    ensures var more := MarksAfter(marks, r.ref, deduped, calls[i].name, hash(outputs[i].content));
            && Onward(v, v.Grown([r], v.records)) && Recounts(log, v0, more, hash, keys, v.Grown([r], v.records))
            && MarksGrow(marks, more, |v.nodes|) && ShowsOutput(r, c, calls[i].name, outputs[i], more, hash)
  {
    hide Sound, Backed, AllShown, Genuine, Tied, Prompted, Records, ShowsOutput, MarksAfter, MarksGrow, RefsBelow;
    hide Dedup.Digest;
    SoundBounds(v);
    NotMarked(v, marks, hash, shown, r.ref);
    var more := MarksAfter(marks, r.ref, deduped, calls[i].name, hash(outputs[i].content));
    MarksAfterGrow(marks, r.ref, deduped, calls[i].name, hash(outputs[i].content));
    ResultBacked(v, r, c, tool, calls[i].name, outputs[i], content, deduped, marks, hash, shown, keys);
    RecordShows(r, c, v.nodes[c].body.callId, calls[i].name, outputs[i], content, deduped, marks, hash);
    OutputShown(log, calls, outputs, i, r, c, more, hash);
    ResultKeeps(log, v0, marks, more, hash, shown, keys, v, r, i);
  }

  lemma OutputShown(log: seq<Event>, calls: seq<ToolCall>, outputs: seq<ToolOutput>, i: nat, r: Node, c: Ref, marks: map<Ref, Dedup.Key>, hash: string -> string)
    requires RanLast(log, calls, outputs) && i < |calls| && i < |outputs|
    requires ShowsOutput(r, c, calls[i].name, outputs[i], marks, hash)
    ensures Shows(log[|log| - 1], i, r, marks, hash)
  {
  }

  /** The batch that just ran, and what it came to. */
  predicate RanLast(log: seq<Event>, calls: seq<ToolCall>, outputs: seq<ToolOutput>) {
    log != [] && log[|log| - 1].Ran? && log[|log| - 1].done == calls && log[|log| - 1].outputs == outputs
  }

  /** The model asked for this batch before the one that just ran. */
  predicate BatchBefore(log: seq<Event>, asked: seq<ToolCall>) {
    |log| > 1 && log[|log| - 2].Batch? && log[|log| - 2].calls == asked
  }

  /** A batch whose every result was recorded is shown. */
  lemma ShownNow(log: seq<Event>, v0: Ledger, a: Ledger, b: Ledger, callNodes: seq<Ref>, asked: seq<ToolCall>, calls: seq<ToolCall>,
                 outputs: seq<ToolOutput>, marks: map<Ref, Dedup.Key>, hash: string -> string)
    requires RanLast(log, calls, outputs) && BatchBefore(log, asked) && |calls| == |outputs| && CallsMatch(b.nodes, callNodes, calls)
    requires Standing(a, asked, calls, callNodes) && ShowsAll(a, b, callNodes, calls, outputs, marks, hash)
    requires AreStreamed(v0.streams, b.streams, FlatMap(PiecesIn, log))
    ensures LastShown(log, v0, b, marks, hash)
  {
    hide CallsMatch, EachShows, FlatMap, BodiesIn, BatchRefs, Instead, CallRefs;
    assert |b.trail| == |a.trail| + |outputs| by {
      EachLength(b.trail[|a.trail|..], callNodes, calls, outputs, marks, hash, |b.nodes|);
    }
    assert b.trail[|a.trail|..|a.trail| + |outputs|] == b.trail[|a.trail|..];
    assert log[..|log| - 1] + [log[|log| - 1]] == log;
    JoinsNothing(log[..|log| - 1], log[|log| - 1]);
    StandsStill(a, b, asked, calls);
  }

  /** What joins the path leaves the batch where it stands. */
  lemma StandsStill(a: Ledger, b: Ledger, asked: seq<ToolCall>, batch: seq<ToolCall>)
    requires a.streams != [] && b.streams == a.streams && b.foreign == a.foreign && a.trail <= b.trail
    requires var x := a.streams[|a.streams| - 1]; |a.trail| == EndOf(x) + Extra(asked, batch)
    ensures var x := a.streams[|a.streams| - 1];
            && BatchRefs(b, x, asked, batch) == BatchRefs(a, x, asked, batch)
            && (Instead(a, x, batch) ==> Instead(b, x, batch))
  {
    hide CallRefs;
    var x := a.streams[|a.streams| - 1];
    assert forall i :: 0 <= i < |a.trail| ==> b.trail[i] == a.trail[i];
    if batch == asked {
      assert b.trail[x.at..EndOf(x)] == a.trail[x.at..EndOf(x)];
    } else {
      assert b.trail[EndOf(x)..EndOf(x) + |batch|] == a.trail[EndOf(x)..EndOf(x) + |batch|];
    }
  }

  lemma EachLength(ns: seq<Node>, callNodes: seq<Ref>, calls: seq<ToolCall>, outputs: seq<ToolOutput>, marks: map<Ref, Dedup.Key>, hash: string -> string, n: nat)
    requires EachShows(ns, callNodes, calls, outputs, marks, hash, n)
    ensures |ns| == |outputs|
  {
  }

  // --- what may come next

  /** Nothing is called for: a message from the queue may be told, or one of the loop's own. */
  lemma MayTell(log: seq<Event>, maxTurns: int, w: World, m: Message, source: Source)
    requires Free(log, maxTurns) && (source.FromQueue? || (source.FromLoop? && m in {WrapUp, StuckNudge}))
    ensures MayCome(log, maxTurns, w, Told(m, source))
  {
  }

  /** The next of the messages from the inbox. */
  lemma MayTellInbox(log: seq<Event>, maxTurns: int, w: World, ms: seq<Message>, i: nat)
    requires log != [] && i < |ms|
    requires log[|log| - 1] == (if i == 0 then Polled(ms) else Told(ms[i - 1], FromInbox(ms[i..])))
    ensures MayCome(log, maxTurns, w, Told(ms[i], FromInbox(ms[i + 1..])))
  {
    assert ms[i..][1..] == ms[i + 1..];
    assert ms[0..] == ms;
  }

  lemma MayTellNotice(log: seq<Event>, maxTurns: int, w: World, m: Message)
    requires log != [] && log[|log| - 1] == Watched(Some(m))
    ensures MayCome(log, maxTurns, w, Told(Notice(m), FromWatch))
  {
  }

  lemma MayPoll(log: seq<Event>, maxTurns: int, w: World)
    requires Free(log, maxTurns)
    ensures MayCome(log, maxTurns, w, Polled(w.inbox(|log|))) && MayCome(log, maxTurns, w, Watched(w.notice(|log|)))
  {
  }

  lemma MayTake(log: seq<Event>, maxTurns: int, w: World, msgs: seq<Message>)
    requires Free(log, maxTurns)
    ensures MayCome(log, maxTurns, w, Taken(msgs))
  {
  }

  lemma MayCompact(log: seq<Event>, maxTurns: int, w: World, summary: string, at: nat)
    requires Free(log, maxTurns) && w.summary(|log|) == Some(summary)
    ensures MayCome(log, maxTurns, w, Compacted(summary, at))
  {
  }

  lemma MayCall(log: seq<Event>, maxTurns: int, w: World, number: nat, prompt: seq<Message>, tools: seq<Tool>, wrapUp: bool, row: string, failed: bool)
    requires Free(log, maxTurns) && (maxTurns > 0 ==> number <= maxTurns && (number == maxTurns ==> tools == [])) && (wrapUp ==> tools == [])
    ensures MayCome(log, maxTurns, w, Called(number, prompt, tools, wrapUp, row, w.pieces(|log|), w.refused(|log|), failed))
  {
  }

  lemma MayRun(log: seq<Event>, maxTurns: int, w: World, refused: map<string, ToolOutput>, calls: seq<ToolCall>, asked: seq<ToolCall>, outputs: seq<ToolOutput>)
    requires log != [] && log[|log| - 1].Batch? && log[|log| - 1].refused == refused
    requires calls == w.batch(|log|) && Resolves(w, |log|, refused, calls, asked, outputs)
    ensures MayCome(log, maxTurns, w, Ran(calls, asked, outputs))
  {
    hide Resolves;
  }

  lemma MayRecord(log: seq<Event>, maxTurns: int, w: World, calls: seq<ToolCall>, outputs: seq<ToolOutput>)
    requires RanLast(log, calls, outputs)
    ensures MayCome(log, maxTurns, w, Recorded)
  {
  }

  /** The newest event is this call, and these are the calls it asks for. */
  predicate CalledLast(log: seq<Event>, number: nat, calls: seq<ToolCall>, refused: map<string, ToolOutput>) {
    && log != [] && log[|log| - 1].Called? && !log[|log| - 1].wrapUp && !log[|log| - 1].failed && log[|log| - 1].number == number
    && CallsIn(BodiesIn(log[|log| - 1].pieces)) == calls && log[|log| - 1].refused == refused
  }

  lemma CalledMeets(log: seq<Event>, number: nat, calls: seq<ToolCall>, refused: map<string, ToolOutput>)
    requires CalledLast(log, number, calls, refused)
    ensures log != [] && Meets(log[|log| - 1], Batch(calls, refused))
  {
  }

  /** A batch follows the call that asked for it. */
  lemma BatchAfterCall(log: seq<Event>, maxTurns: int)
    requires Chained(log, maxTurns) && log != [] && log[|log| - 1].Batch?
    ensures |log| > 1 && log[|log| - 2].Called?
  {
    hide CallsIn, BodiesIn;
    assert Links(Last(log[..|log| - 1]), log[|log| - 1], maxTurns);
  }

  /** Unless its calls are to run, nothing is called for after it. */
  lemma CalledFree(log: seq<Event>, maxTurns: int, number: nat, calls: seq<ToolCall>, refused: map<string, ToolOutput>)
    requires CalledLast(log, number, calls, refused) && (calls == [] || (maxTurns > 0 && number >= maxTurns))
    ensures Free(log, maxTurns)
  {
  }
}
