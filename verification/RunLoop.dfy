/** A session's turn: call the model, run the tools it asks for, feed the results back, stop on an answer
    (internal/loop/run_loop.go). The world answers as it will; whatever can fail may fail. */
module RunLoop {
  import opened Wrappers
  import opened Messages
  import opened Nodes
  import opened Convert
  import opened Protocol
  import opened Ledgers
  import opened Sessions
  import opened Queues
  import opened Fingerprints
  import opened RunRecords
  import opened RunTurns
  import opened RunSteps
  import opened RunPaths
  import opened RunAnswers
  import opened RunHeads
  import opened RunPhases
  import RunPasses
  import Lists
  import Trees
  import Dedup
  import StreamStrings

  /** Something no one here decides. */
  method Any<T(0)>() returns (x: T) {
    x := *;
  }

  class Run {
    const cfg: Config
    const w: World
    const s: Session
    const q: MessageQueue
    const deduper: Dedup.OutputDeduper
    var window: int
    var turn: nat
    var lastBatch: string
    var repeats: nat
    var lastComp: Option<Completion>
    var lastSent: nat
    var overflowTurn: Option<nat>
    var turns: nat
    /** How many events there have been. */
    var clock: nat
    /** What happened; the results a marker stands for, and the deduper's keys whose output the window shows; and the
        queued messages: taken from the queue before the run, known to it then, taken since, still to be told, and told,
        with the place of each. */
    ghost var log: seq<Event>
    ghost var marks: map<Ref, Dedup.Key>
    ghost var shown: seq<string>
    ghost const before: seq<Queued>
    ghost const known: seq<Queued>
    ghost var got: seq<Queued>
    ghost var due: seq<Message>
    ghost var drained: seq<Message>
    ghost var mail: seq<nat>
    /** The newest model calls. */
    ghost var newest: Newest
    /** How far the boundary of the next turn is. */
    ghost var phase: Phase
    /** The record and the marks when the run began. */
    ghost const v0: Ledger
    ghost const marks0: map<Ref, Dedup.Key>

    /** What every step of a run keeps. */
    ghost predicate Ready()
      reads this`log, this`clock, this`marks, this`shown, this`got, this`due, this`drained, this`phase, this`mail, this`turns, this`newest, this`repeats, this`lastBatch
      reads s, s.tree, q, deduper
    {
      s.Valid() && Kept() && Mail() && phase.owed == due
    }

    ghost predicate Kept()
      requires s.Valid()
      reads this`log, this`clock, this`marks, this`shown, this`drained, this`phase, this`turns, this`newest, this`repeats, this`lastBatch, s, s.tree, deduper
    {
      clock == |log| && KeptBut()
    }

    ghost predicate KeptBut()
      requires s.Valid()
      reads this`log, this`marks, this`shown, this`drained, this`phase, this`turns, this`newest, this`repeats, this`lastBatch, s, s.tree, deduper
    {
      && Deduped()
      && Sound(s.Now())
      && Orderly(log, cfg.maxTurns, turns, repeats, lastBatch, w, drained, newest, phase, cfg.watcher)
      && Recounts(log, v0, marks, deduper.hash, shown, s.Now())
      && Newer(log, w, v0, marks0, s.Now(), marks)
    }

    ghost predicate Deduped()
      reads deduper
    {
      deduper.Valid() && Dedup.Digest(deduper.hash) && (!cfg.dedup ==> deduper.keys == [])
    }

    /** Every message taken from the queue is told or due, and those told stand on the record in that order. */
    ghost predicate Mail()
      reads this`got, this`due, this`drained, this`mail, s`posts, q
    {
      q.Valid() && q.taken == before + got && known <= q.accepted && Delivered(s.posts, mail, drained, due, got)
    }

    /** Within a turn: every message taken from the queue is told, no nudge is due, and the deduper remembers only what
        the window shows. */
    ghost predicate Steady()
      reads this`log, this`clock, this`marks, this`shown, this`got, this`due, this`drained, this`phase, this`mail, this`turns, this`newest, this`repeats, this`lastBatch
      reads s, s.tree, q, deduper
    {
      Ready() && due == [] && !NudgeDue(log, repeats) && shown == deduper.keys
    }

    /** Between turns every call is answered too, and nothing is called for. */
    ghost predicate Between()
      reads this`log, this`clock, this`marks, this`shown, this`got, this`due, this`drained, this`phase, this`mail, this`turns, this`newest, this`repeats, this`lastBatch
      reads s, s.tree, q, deduper
    {
      Steady() && s.Now().Open() == Some({}) && Free(log, cfg.maxTurns)
    }

    /** The run is over: every call is answered, and the ending carries the window. */
    ghost predicate Ended(e: Ending)
      reads this`log, this`clock, this`marks, this`shown, this`got, this`due, this`drained, this`phase, this`mail, this`turns, this`newest, this`repeats, this`lastBatch
      reads s, s.tree, q, deduper
    {
      Ready() && due == [] && s.Now().Open() == Some({}) && Fair(e, s.Now().Window()) && Concludes(newest, phase.polled, e.final, e.err.Some?)
    }

    ghost predicate Goes(n: Next)
      reads this`log, this`clock, this`marks, this`shown, this`got, this`due, this`drained, this`phase, this`mail, this`turns, this`newest, this`repeats, this`lastBatch
      reads s, s.tree, q, deduper
    {
      if n.Over? then Ended(n.ending) else Between()
    }

    constructor (cfg: Config, w: World, s: Session, q: MessageQueue, deduper: Dedup.OutputDeduper, window: int, ghost marks: map<Ref, Dedup.Key>)
      requires s.Valid() && q.Valid() && deduper.Valid() && deduper.keys == [] && Dedup.Digest(deduper.hash)
      requires Sound(s.Now()) && Backed(s.Now(), marks, deduper.hash, []) && s.Now().Open() == Some({})
      ensures this.cfg == cfg && this.w == w && this.s == s && this.q == q && this.deduper == deduper
      ensures this.marks == marks && marks0 == marks && v0 == s.Now() && before == q.taken && known == q.accepted
      ensures Between() && log == [] && turn == 0 && turns == 0 && overflowTurn.None?
    {
      hide Sessions.Session.Rooted, Sessions.Session.Indexed, LinksBack, CallsBelow, Sessions.Session.Trail, Start;
      hide Sound, Backed;
      hide Orderly, Recounts, Mailed, Bare, OpenCalls, Delivered, Newer;
      OrderlyAtFirst(cfg.maxTurns, w, cfg.watcher);
      RecountsAtFirst(s.Now(), marks, deduper.hash);
      NoneDelivered(s.posts);
      NewerAtFirst(w, s.Now(), marks);
      this.cfg, this.w, this.s, this.q, this.deduper, this.window := cfg, w, s, q, deduper, window;
      turn, lastBatch, repeats, lastComp, lastSent, overflowTurn, turns, clock := 0, "", 0, None, 0, None, 0, 0;
      log, this.marks, shown, before, known, got, due, drained, mail := [], marks, [], q.taken, q.accepted, [], [], [], [];
      newest, phase := Newest(None, None), AtFirst;
      v0, marks0 := s.Now(), marks;
    }

    // --- steps on the session

    method Tell(m: Message, source: Source) returns (o: Outcome<seq<Node>>)
      requires Ready() && MayCome(log, cfg.maxTurns, w, Told(m, source)) && (IsNudge(Told(m, source)) <==> NudgeDue(log, repeats))
      requires DueFirst(source, due, m)
      modifies this`log, this`clock, this`due, this`phase, this`drained, this`mail, s`leaf, s`records, s`foreign, s`posts, s.tree
      ensures o.Returned? ==> Ready() && log == old(log) + [Told(m, source)] && AllAlike(o.value, NodesOf(m, s.dialect, old(s.records)))
      ensures o.Returned? ==> due == DueAfter(source, old(due)) && phase == old(phase).(owed := due)
      ensures o.Returned? ==> s.Now() == old(s.Now()).Told(m, o.value) && s.Now().Open() == old(s.Now()).Open()
      ensures o.Returned? ==> Onward(old(s.Now()), s.Now()) && AreTold(old(s.posts), s.posts, [m])
    {
      hide Sessions.Session.Rooted, Sessions.Session.Indexed, LinksBack, CallsBelow, Sessions.Session.Now, Sound;
      hide Orderly, Recounts, OpenCalls;
      hide AllAlike, NodesOf, RefsRun, Delivered, MayCome, IsNudge, NudgeDue, Newer, AreTold, Onward;
      hide Dedup.SameKeys, Dedup.Digest;
      ghost var v := s.Now();
      RecordsNow();
      var ns :- s.AppendFlat(m);
      RecordsNow();
      NoteTold(v, m, ns, source);
      clock := clock + 1;
      return Returned(ns);
    }

    /** The message that joined as ns, from the state v on. */
    ghost method NoteTold(v: Ledger, m: Message, ns: seq<Node>, source: Source)
      requires Sound(v) && RefsRun(ns, |v.nodes|)
      requires Orderly(log, cfg.maxTurns, turns, repeats, lastBatch, w, drained, newest, phase, cfg.watcher)
      requires Recounts(log, v0, marks, deduper.hash, shown, v) && Newer(log, w, v0, marks0, v, marks) && Delivered(v.posts, mail, drained, due, got)
      requires MayCome(log, cfg.maxTurns, w, Told(m, source)) && (IsNudge(Told(m, source)) <==> NudgeDue(log, repeats))
      requires DueFirst(source, due, m) && phase.owed == due
      modifies this`log, this`due, this`phase, this`drained, this`mail
      ensures log == old(log) + [Told(m, source)] && due == DueAfter(source, old(due)) && phase == old(phase).(owed := due)
      ensures Onward(v, v.Told(m, ns)) && AreTold(v.posts, v.Told(m, ns).posts, [m])
      ensures Orderly(log, cfg.maxTurns, turns, repeats, lastBatch, w, drained, newest, phase, cfg.watcher)
      ensures Recounts(log, v0, marks, deduper.hash, shown, v.Told(m, ns)) && Newer(log, w, v0, marks0, v.Told(m, ns), marks)
      ensures Delivered(v.Told(m, ns).posts, mail, drained, due, got)
    {
      hide Sound, Orderly, Recounts;
      hide RefsRun, Elems, NodeRefs, Delivered, MayCome, IsNudge, NudgeDue, Newer, QueuedIn, AreTold, Onward;
      ghost var e := Event.Told(m, source);
      MessageKeeps(log, v0, marks, deduper.hash, shown, v, m, ns, source);
      OrderlyMore(log, cfg.maxTurns, turns, repeats, lastBatch, w, drained, newest, phase, cfg.watcher, e);
      DeliveredTold(v.posts, mail, drained, due, got, Post(m, v.records, |v.trail|), source);
      OneTold(v.posts, Post(m, v.records, |v.trail|));
      NewerTold(log, w, v0, marks0, v, m, ns, e, marks);
      if source.FromQueue? {
        mail, due := mail + [|v.posts|], due[1..];
      }
      drained := drained + QueuedIn(e);
      log, phase := log + [e], Moves(phase, e);
    }

    method OmitRefs(refs: seq<Ref>, reason: string) returns (o: Outcome<seq<Node>>)
      requires Ready() && OwnCalls(s.Now(), refs) && reason != ""
      modifies s`leaf, s.tree
      ensures o.Returned? ==> Ready() && s.Now().Open() == Some({}) && Onward(old(s.Now()), s.Now())
    {
      hide Sessions.Session.Rooted, Sessions.Session.Indexed, LinksBack, CallsBelow, Sessions.Session.Trail, Start;
      hide Sound, Orderly, Recounts, OpenCalls;
      hide RefsRun, Elems, OmitsAll, Unanswered, LiveAmong, Delivered, Newer, NoResults;
      ghost var v := s.Now();
      OwnWithin(v, refs);
      var ns :- s.OmitCalls(refs, reason);
      OmitsNoResults(ns, Unanswered(LiveAmong(v.nodes, refs), v.trail), v.nodes, reason);
      StepKeeps(log, v0, marks, deduper.hash, shown, v, ns);
      ResultsOfLoop(v, ns);
      NewerStep(log, w, v0, marks0, v, ns, marks);
      return Returned(ns);
    }

    method Text(rec: nat, text: string) returns (o: Outcome<Node>)
      requires Ready() && MayText(s.Now(), rec) && !Blank(text)
      modifies s`leaf, s.tree
      ensures o.Returned? ==> Ready() && Onward(old(s.Now()), s.Now())
      ensures o.Returned? ==> s.Now() == old(s.Now()).Grown([o.value], old(s.Now()).records)
      ensures o.Returned? ==> o.value.body == AssistantBody(Finished(text)) && o.value.call == Some(rec) && !o.value.superseded
      ensures o.Returned? && old(s.Now()).Open() == Some({}) ==> s.Now().Open() == Some({})
    {
      hide Sessions.Session.Rooted, Sessions.Session.Indexed, LinksBack, CallsBelow, Sessions.Session.Trail, Start;
      hide Sound, Orderly, Recounts, OpenCalls;
      hide Alike, Delivered, Newer;
      ghost var v := s.Now();
      var n :- s.AddText(rec, text);
      TextKeeps(v, n, rec, text);
      TextNoResult(n, rec, text);
      StepKeeps(log, v0, marks, deduper.hash, shown, v, [n]);
      TextOfLoop(v, n, rec, text);
      NewerStep(log, w, v0, marks0, v, [n], marks);
      return Returned(n);
    }

    /** An event that leaves the record as it is. */
    ghost method Note(e: Event)
      requires s.Valid() && KeptBut() && MayCome(log, cfg.maxTurns, w, e) && !e.Called? && !e.Told? && !e.Compacted? && !e.Batch?
      requires !NudgeDue(log, repeats) && (e.Ran? ==> repeats < StuckFailAt) && phase.owed == []
      requires e.Recorded? ==> LastShown(log, v0, s.Now(), marks, deduper.hash)
      modifies this`log, this`phase
      ensures s.Valid() && KeptBut() && log == old(log) + [e] && phase == Moves(old(phase), e)
    {
      hide Sessions.Session.Rooted, Sessions.Session.Indexed, LinksBack, CallsBelow, Sessions.Session.Now, Sound;
      hide Orderly, Recounts, MayCome, LastShown, NudgeDue, Newer, Dedup.SameKeys, Dedup.Digest;
      OrderlyMore(log, cfg.maxTurns, turns, repeats, lastBatch, w, drained, newest, phase, cfg.watcher, e);
      assert drained + QueuedIn(e) == drained;
      NotedKeeps(log, v0, marks, deduper.hash, shown, s.Now(), e);
      NewerNoted(log, w, v0, marks0, s.Now(), marks, e);
      log, phase := log + [e], Moves(phase, e);
    }

    /** Summarizes the window and starts it anew; a failure leaves the window as it was. */
    method CompactNow() returns (o: Outcome<bool>)
      requires Between()
      modifies this`log, this`clock, this`shown, s`leaf, s`window, s`sent, s`fence, s.tree, deduper
      ensures o.Returned? ==> Between()
      ensures o.Returned? && o.value ==> exists summary, at :: log == old(log) + [Compacted(summary, at)]
      ensures o.Returned? && !o.value ==> log == old(log) && s.Now() == old(s.Now())
    {
      hide Kept, Mail, Sessions.Session.Now, Sessions.Session.Rooted, Sessions.Session.Indexed, LinksBack;
      hide CallsBelow, OpenCalls, NudgeDue, Free;
      Reckoned();
      var summary := w.summary(clock);
      if summary.None? {
        return Returned(false);
      }
      var hostID: string := Any();
      var _ :- CompactWith(summary.value, hostID);
      return Returned(true);
    }

    lemma Reckoned()
      requires s.Valid() && Kept()
      ensures clock == |log|
    {
      hide KeptBut;
    }

    method CompactWith(summary: string, hostID: string) returns (o: Outcome<Node>)
      requires Between() && w.summary(|log|) == Some(summary)
      modifies this`log, this`clock, this`shown, s`leaf, s`window, s`sent, s`fence, s.tree, deduper
      ensures o.Returned? ==> Between() && log == old(log) + [Compacted(summary, |old(s.Now()).trail|)]
    {
      hide Sessions.Session.Rooted, Sessions.Session.Indexed, LinksBack, CallsBelow, Sessions.Session.Trail, Start;
      hide Sound, Orderly, Recounts;
      hide Mail, OpenCalls, NudgeDue, StreamStrings.Finished, Dedup.OutputDeduper.Valid, Dedup.Digest, Newer, Free;
      hide MayCome, QueuedIn;
      ghost var v := s.Now();
      if cfg.dedup {
        deduper.Reset();
      }
      var c :- s.Compact(summary, hostID);
      NoteCompacted(v, c, summary);
      clock := clock + 1;
      return Returned(c);
    }

    /** The summary that joined as c, from the state v on. */
    ghost method NoteCompacted(v: Ledger, c: Node, summary: string)
      requires Sound(v) && c.ref == |v.nodes| && !c.superseded && c.kind == CompactionKind && c.body.CompactionBody? && c.body.summary == StreamStrings.Finished(summary)
      requires Orderly(log, cfg.maxTurns, turns, repeats, lastBatch, w, drained, newest, phase, cfg.watcher)
      requires Recounts(log, v0, marks, deduper.hash, shown, v) && Newer(log, w, v0, marks0, v, marks)
      requires Free(log, cfg.maxTurns) && !NudgeDue(log, repeats) && w.summary(|log|) == Some(summary) && phase.owed == []
      modifies this`log, this`shown
      ensures log == old(log) + [Compacted(summary, |v.trail|)] && shown == []
      ensures Orderly(log, cfg.maxTurns, turns, repeats, lastBatch, w, drained, newest, phase, cfg.watcher)
      ensures Recounts(log, v0, marks, deduper.hash, shown, v.Compacted(c)) && Newer(log, w, v0, marks0, v.Compacted(c), marks)
      ensures Free(log, cfg.maxTurns) && !NudgeDue(log, repeats)
    {
      hide Sound, Orderly, Recounts, StreamStrings.Finished, NudgeDue, Newer, Free, MayCome;
      ghost var e := Compacted(summary, |v.trail|);
      CompactedKeeps(log, v0, marks, deduper.hash, shown, v, c, summary);
      MayCompact(log, cfg.maxTurns, w, summary, e.at);
      OrderlyHeard(log, cfg.maxTurns, turns, repeats, lastBatch, w, drained, newest, phase, cfg.watcher, e);
      NewerCompacted(log, w, v0, marks0, v, c, e, marks);
      log, shown := log + [e], [];
    }

    // --- messages from outside

    /** Other goroutines queue what they have. */
    method Arrive()
      requires Ready()
      modifies q`items, q`accepted
      ensures Ready() && (old(Between()) ==> Between())
    {
      hide Sessions.Session.Valid, Sessions.Session.Now, OpenCalls, NudgeDue, Kept, Delivered, Free;
      var ms: seq<Queued> := Any();
      for i := 0 to |ms|
        invariant q.Valid() && q.taken == old(q.taken) && old(q.accepted) <= q.accepted
      {
        var _ := q.Queue(ms[i]);
      }
    }

    /** Adds every queued message, the system's first, and gives them. */
    method Drain() returns (o: Outcome<seq<Message>>)
      requires Between()
      modifies this`log, this`clock, this`got, this`due, this`phase, this`drained, this`mail, s`leaf, s`records, s`foreign, s`posts, s.tree, q
      ensures o.Returned? ==> Between() && q.items == [] && AreTold(old(s.posts), s.posts, o.value)
      ensures o.Returned? ==> exists more :: got == old(got) + more && o.value == Delivery(more)
      ensures o.Returned? ==> phase == Phase(true, false, false, [])
    {
      hide Kept, Mail, Sessions.Session.Rooted, Sessions.Session.Indexed, LinksBack, CallsBelow;
      hide Sessions.Session.Now, Delivery, NudgeDue, OpenCalls, AreTold, Free;
      Arrive();
      ghost var more := q.items;
      var msgs := Take();
      NoneTold(s.posts);
      for i := 0 to |msgs|
        invariant Ready() && s.Now().Open() == Some({}) && q.items == [] && !NudgeDue(log, repeats) && Free(log, cfg.maxTurns)
        invariant phase == Phase(true, false, false, msgs[i..])
        invariant due == msgs[i..] && got == old(got) + more && AreTold(old(s.posts), s.posts, msgs[..i])
      {
        ghost var posts := s.posts;
        var _ :- TellNext(msgs[i]);
        MoreTold(old(s.posts), posts, s.posts, msgs, i);
        assert msgs[i..][1..] == msgs[i + 1..];
      }
      assert msgs[..|msgs|] == msgs;
      return Returned(msgs);
    }

    /** The queue is emptied, and what was in it is to be told. */
    method Take() returns (msgs: seq<Message>)
      requires Between()
      modifies this`log, this`clock, this`got, this`due, this`phase, q
      ensures Ready() && s.Now().Open() == Some({}) && !NudgeDue(log, repeats) && Free(log, cfg.maxTurns) && shown == deduper.keys
      ensures due == msgs && phase == Phase(true, false, false, msgs) && log == old(log) + [Taken(msgs)]
      ensures q.items == [] && q.closed == old(q.closed)
      ensures msgs == Delivery(old(q.items)) && got == old(got) + old(q.items)
    {
      hide KeptBut, Sessions.Session.Rooted, Sessions.Session.Indexed, LinksBack, CallsBelow, Sessions.Session.Now, OpenCalls;
      hide Delivered, Delivery, NudgeDue, MayCome, Moves, Free;
      msgs := EmptyQueue();
      MayTake(log, cfg.maxTurns, w, msgs);
      TookQueue(phase, msgs);
      Note(Taken(msgs));
      NoteQuiet(log, repeats);
      TakenFree(log, cfg.maxTurns, msgs);
      clock, due := clock + 1, msgs;
    }

    method EmptyQueue() returns (msgs: seq<Message>)
      requires Mail() && due == []
      modifies this`got, q
      ensures q.Valid() && q.taken == before + got && known <= q.accepted && Delivered(s.posts, mail, drained, msgs, got)
      ensures q.items == [] && q.closed == old(q.closed)
      ensures msgs == Delivery(old(q.items)) && got == old(got) + old(q.items)
    {
      hide Delivered, Delivery;
      ghost var items := q.items;
      DeliveredTaken(s.posts, mail, drained, got, items);
      assert before + (got + items) == before + got + items;
      msgs := q.Drain();
      got := got + items;
    }

    method TellNext(m: Message) returns (o: Outcome<nat>)
      requires Ready() && due != [] && due[0] == m && !NudgeDue(log, repeats) && Free(log, cfg.maxTurns)
      modifies this`log, this`clock, this`due, this`phase, this`drained, this`mail, s`leaf, s`records, s`foreign, s`posts, s.tree
      ensures o.Returned? ==> Ready() && due == old(due)[1..] && s.Now().Open() == old(s.Now()).Open()
      ensures o.Returned? ==> AreTold(old(s.posts), s.posts, [m]) && !NudgeDue(log, repeats) && Free(log, cfg.maxTurns)
      ensures o.Returned? ==> phase == old(phase).(owed := due)
    {
      hide Kept, Mail, Sessions.Session.Now, Sessions.Session.Rooted, Sessions.Session.Indexed, LinksBack, CallsBelow;
      hide OpenCalls, NodesOf, AllAlike, Onward, MayCome, AreTold;
      MayTell(log, cfg.maxTurns, w, m, FromQueue);
      var _ :- Tell(m, FromQueue);
      return Returned(0);
    }

    /** A sub-agent's report goes through the queue. */
    method Deliver(content: string)
      requires Ready()
      modifies q`items, q`accepted
      ensures Ready()
      ensures q.items == old(q.items) + Handed(q.closed, content)
    {
      hide Sessions.Session.Valid, Kept, Delivered;
      var _ := q.Queue(SystemMessage(Plain(User, "", "subagent_report", content)));
    }

    /** Tells what the inbox gave when it was asked, in that order. */
    method DrainInbox() returns (o: Outcome<seq<Message>>)
      requires Between()
      modifies this`log, this`clock, this`due, this`phase, this`drained, this`mail, s`leaf, s`records, s`foreign, s`posts, s.tree
      ensures o.Returned? ==> Between() && AreTold(old(s.posts), s.posts, o.value)
      ensures o.Returned? ==> o.value == w.inbox(|old(log)|) && phase == Phase(old(phase).took, old(phase).took, false, [])
    {
      hide Kept, Mail, Sessions.Session.Rooted, Sessions.Session.Indexed, LinksBack, CallsBelow;
      hide Sessions.Session.Now, OpenCalls, AreTold, MayCome, Free, NudgeDue;
      var msgs := PollInbox();
      NoneTold(s.posts);
      for i := 0 to |msgs|
        invariant Steady() && s.Now().Open() == Some({}) && InboxLast(log, msgs, i)
        invariant AreTold(old(s.posts), s.posts, msgs[..i]) && phase == Phase(old(phase).took, old(phase).took, false, [])
      {
        ghost var posts := s.posts;
        var _ :- TellInbox(msgs, i);
        MoreTold(old(s.posts), posts, s.posts, msgs, i);
      }
      assert msgs[..|msgs|] == msgs;
      InboxDone(log, cfg.maxTurns, msgs);
      return Returned(msgs);
    }

    method PollInbox() returns (msgs: seq<Message>)
      requires Between()
      modifies this`log, this`clock, this`phase
      ensures phase == Phase(old(phase).took, old(phase).took, false, [])
      ensures Steady() && s.Now() == old(s.Now()) && msgs == w.inbox(|old(log)|) && InboxLast(log, msgs, 0)
    {
      hide KeptBut, Mail, Sessions.Session.Rooted, Sessions.Session.Indexed, LinksBack, CallsBelow;
      hide Sessions.Session.Now, OpenCalls, MayCome, Free, NudgeDue;
      MayPoll(log, cfg.maxTurns, w);
      msgs := w.inbox(clock);
      Note(Polled(msgs));
      NoteQuiet(log, repeats);
      clock := clock + 1;
    }

    method TellInbox(msgs: seq<Message>, i: nat) returns (o: Outcome<nat>)
      requires Steady() && i < |msgs| && InboxLast(log, msgs, i)
      modifies this`log, this`clock, this`due, this`phase, this`drained, this`mail, s`leaf, s`records, s`foreign, s`posts, s.tree
      ensures o.Returned? ==> Steady() && InboxLast(log, msgs, i + 1) && s.Now().Open() == old(s.Now()).Open()
      ensures o.Returned? ==> AreTold(old(s.posts), s.posts, [msgs[i]]) && phase == old(phase)
    {
      hide Kept, Mail, Sessions.Session.Rooted, Sessions.Session.Indexed, LinksBack, CallsBelow;
      hide Sessions.Session.Now, OpenCalls, AreTold, MayCome, NodesOf, AllAlike, Onward;
      MayTellInbox(log, cfg.maxTurns, w, msgs, i);
      var _ :- Tell(msgs[i], FromInbox(msgs[i + 1..]));
      return Returned(0);
    }

    // --- ending

    /** The ending that Fair asks for. */
    method Done(final: Option<Message>, err: Option<Error>) returns (e: Ending)
      requires Ready()
      requires (final.Some? ==> CallFree(final.value)) && (err.None? ==> final.Some? && !Blank(final.value.content))
      ensures s.Valid() && s.Now().start <= |s.Now().trail|
      ensures Fair(e, s.Now().Window()) && e.final == final && e.err == err
    {
      hide Sessions.Session.Trail, Sound, Orderly, Recounts, Mail, Dedup.SameKeys, Dedup.Digest, CallFree, Flatten;
      hide Newer;
      var messages := s.Messages();
      e := Ending(messages, final, err);
    }

    // --- the turn boundary

    /** When the estimate reaches the window: a compaction, or an error when there can be none. */
    method CapToWindow() returns (o: Outcome<Option<Error>>)
      requires Between()
      modifies this`lastComp, this`log, this`clock, this`shown, s`leaf, s`window, s`sent, s`fence, s.tree, deduper
      ensures o.Returned? ==> Between()
    {
      hide Kept, Mail, Sessions.Session.Rooted, Sessions.Session.Indexed, LinksBack, CallsBelow;
      hide Sessions.Session.Now, NudgeDue, OpenCalls, Free;
      var transcript := Transcript();
      if window <= 0 || lastSent > |transcript| {
        return Returned(None);
      }
      var chars: nat := Any();
      var est := if lastComp.None? || !lastComp.value.usageReported then 0 else lastComp.value.promptTokens + chars / 3;
      if est < window {
        return Returned(None);
      }
      if cfg.autoCompact > 0.0 {
        var compacted :- CompactNow();
        if compacted {
          lastComp := None;
          return Returned(None);
        }
      }
      return Returned(Some(Error("the next request exceeds the context window", false, false)));
    }

    method Transcript() returns (ms: seq<Message>)
      requires Ready()
      ensures s.Valid() && ms == s.Now().Window()
    {
      ms := s.Messages();
    }

    /** Reports of sub-agents that are ready, queued messages and the inbox join the conversation. */
    method Receive() returns (o: Outcome<nat>)
      requires Between()
      modifies this`log, this`clock, this`got, this`due, this`phase, this`drained, this`mail, s`leaf, s`records, s`foreign, s`posts, s.tree, q
      ensures o.Returned? ==> Between() && phase == Phase(true, true, false, [])
    {
      hide Kept, Mail, Sessions.Session.Rooted, Sessions.Session.Indexed, LinksBack, CallsBelow;
      hide Sessions.Session.Now, NudgeDue, OpenCalls, Free;
      if turn > 0 && cfg.subagents {
        var report: Option<string> := Any();
        if report.Some? {
          Deliver(report.value);
        }
      }
      var _ :- Drain();
      var inbox :- DrainInbox();
      return Returned(|inbox|);
    }

    /** The resource watch, when there is one: a notice, or a failure that ends the run. */
    method Watch() returns (o: Outcome<Option<Error>>)
      requires Between()
      modifies this`log, this`clock, this`due, this`phase, this`drained, this`mail, s`leaf, s`records, s`foreign, s`posts, s.tree
      ensures o.Returned? ==> Between() && phase.polled == old(phase.polled)
      ensures o.Returned? && o.value.None? ==> phase == if cfg.watcher then old(phase).(watched := old(phase).polled) else old(phase)
      ensures o.Returned? && cfg.watcher && o.value.None? ==> exists rest :: log == old(log) + [Watched(w.notice(|old(log)|))] + rest
    {
      hide Kept, Mail, Sessions.Session.Rooted, Sessions.Session.Indexed, LinksBack, CallsBelow;
      hide Sessions.Session.Now, NudgeDue, OpenCalls, Free;
      if !cfg.watcher {
        return Returned(None);
      }
      var failed: Option<Error> := Any();
      if failed.Some? {
        return Returned(failed);
      }
      var notice := PollWatch();
      if notice.Some? {
        var _ :- TellNotice(notice.value);
      } else {
        assert log == log + [];
      }
      return Returned(None);
    }

    method PollWatch() returns (notice: Option<Message>)
      requires Between()
      modifies this`log, this`clock, this`phase
      ensures phase == old(phase).(watched := old(phase).polled)
      ensures Steady() && s.Now() == old(s.Now()) && notice == w.notice(|old(log)|) && log == old(log) + [Watched(notice)]
      ensures notice.None? ==> Between()
    {
      hide KeptBut, Mail, Sessions.Session.Rooted, Sessions.Session.Indexed, LinksBack, CallsBelow;
      hide Sessions.Session.Now, OpenCalls, MayCome, NudgeDue;
      MayPoll(log, cfg.maxTurns, w);
      notice := w.notice(clock);
      Note(Watched(notice));
      NoteQuiet(log, repeats);
      clock := clock + 1;
    }

    method TellNotice(m: Message) returns (o: Outcome<nat>)
      requires Steady() && s.Now().Open() == Some({}) && log != [] && log[|log| - 1] == Watched(Some(m))
      modifies this`log, this`clock, this`due, this`phase, this`drained, this`mail, s`leaf, s`records, s`foreign, s`posts, s.tree
      ensures o.Returned? ==> Between() && log == old(log) + [Told(Notice(m), FromWatch)] && phase == old(phase)
    {
      hide Kept, Mail, Sessions.Session.Rooted, Sessions.Session.Indexed, LinksBack, CallsBelow;
      hide Sessions.Session.Now, OpenCalls, AreTold, MayCome, NodesOf, AllAlike, Onward;
      MayTellNotice(log, cfg.maxTurns, w, m);
      var _ :- Tell(Notice(m), FromWatch);
      return Returned(0);
    }

    /** What happens before a turn's call: compaction, delivery, the watch, and the cap. */
    method Boundary() returns (o: Outcome<Option<Error>>)
      requires Between()
      modifies this`lastComp, this`lastSent, this`log, this`clock, this`shown, this`got, this`due, this`phase, this`drained, this`mail
      modifies s`leaf, s`window, s`sent, s`fence, s`records, s`foreign, s`posts, s.tree, q, deduper
      ensures o.Returned? ==> Between() && phase.polled && (o.value.None? ==> Prepared(phase, cfg.watcher))
    {
      hide Between;
      if ShouldCompact(cfg, window, lastComp) {
        var compacted :- CompactNow();
        if compacted {
          lastComp, lastSent := None, 0;
        }
      }
      var _ :- Receive();
      var failed :- Watch();
      if failed.Some? {
        return Returned(failed);
      }
      o := CapToWindow();
    }

    // --- a model call

    /** One model call on msgs, counted unless the host cancels it before it starts. Every call of every earlier turn
        has its answer by now, and msgs is the window. */
    method Call(number: nat, msgs: seq<Message>, tools: seq<Tool>, wrapUp: bool, firstID: string) returns (o: Outcome<(ModelCall, Option<Error>)>)
      requires Between() && msgs == s.Now().Window() && (if wrapUp then tools == [] else Prepared(phase, cfg.watcher))
      requires cfg.maxTurns > 0 ==> number <= cfg.maxTurns && (number == cfg.maxTurns ==> tools == [])
      modifies this`log, this`clock, this`turns, this`newest, this`phase, s`leaf, s`records, s`streams, s`sent, s`fence, s.tree
      ensures o.Returned? ==> Steady()
      ensures o.Returned? ==> turns == old(turns) + if o.value.0.rec.Some? then 1 else 0
      ensures o.Returned? && o.value.0.rec.Some? ==> CallMade(old(s.Now()), s.Now(), o.value.0.nodes, o.value.0.rec.value)
      ensures o.Returned? && o.value.0.rec.Some? ==> LogsCall(old(log), log, number, msgs, tools, wrapUp, o.value.0, o.value.1.Some?)
      ensures o.Returned? && o.value.0.rec.Some? ==>
                HeardAs(newest.call, wrapUp, firstID, o.value.1.Some?, o.value.0.nodes) && newest.turn == if wrapUp then old(newest.turn) else newest.call
      ensures o.Returned? ==> if o.value.0.rec.Some? then !phase.polled else newest == old(newest) && phase == old(phase)
      ensures o.Returned? && o.value.0.rec.None? ==> o.value.0 == NotMade && o.value.1.Some? && Between() && s.Now() == old(s.Now())
    {
      hide Kept, Mail, Sessions.Session.Rooted, Sessions.Session.Indexed, LinksBack, CallsBelow;
      hide Sessions.Session.Now, NudgeDue, OpenCalls, CallMade, Free, BodiesIn, BodiesOf, CallsIn, CallsOf, Flatten, Prepared;
      var unstarted: Option<Error> := Any();
      if unstarted.Some? {
        return Returned((NotMade, unstarted));
      }
      Reckoned();
      var rec, refused := s.records, w.refused(clock);
      var failed: Option<Error> := Any();
      ghost var e := Called(number, msgs, tools, wrapUp, firstID, w.pieces(clock), refused, failed.Some?);
      MayCall(log, cfg.maxTurns, w, number, msgs, tools, wrapUp, firstID, failed.Some?);
      var ns :- Stream(w.pieces(clock), firstID, e);
      var comp: Option<Completion> := Any();
      return Returned((ModelCall(comp, ns, Some(rec), refused), failed));
    }

    /** What the event e says happens: the window goes out, and what is streamed joins. */
    method Stream(pieces: seq<Piece>, firstID: string, ghost e: Event) returns (o: Outcome<seq<Node>>)
      requires Between() && e.Called? && e.pieces == pieces && e.prompt == s.Now().Window()
      requires MayCome(log, cfg.maxTurns, w, e) && (!e.wrapUp ==> Prepared(phase, cfg.watcher))
      modifies this`log, this`clock, this`turns, this`newest, this`phase, s`leaf, s`records, s`streams, s`sent, s`fence, s.tree
      ensures o.Returned? ==> Steady() && turns == old(turns) + 1 && !phase.polled
      ensures o.Returned? ==> CallMade(old(s.Now()), s.Now(), o.value, old(s.records))
      ensures o.Returned? ==> log == old(log) + [e] && newest == Hears(old(newest), e)
      ensures o.Returned? ==> CallsIn(BodiesIn(pieces)) == CallsOf(o.value) && BodiesOf(o.value) == BodiesIn(pieces)
    {
      hide Kept, Sessions.Session.Rooted, Sessions.Session.Indexed, LinksBack, CallsBelow, Sessions.Session.Now, Sound;
      hide Orderly, Recounts, Deduped;
      hide Mail, OpenCalls, NudgeDue, BodiesIn, CallsOf, Free, MayCome, CallsIn, Newer;
      hide RefsRun, AllOfCall, Elems, LiveRefs, Flatten, CallMade, AreStreamed, Lists.FlatMap, Hears, BodiesOf, Moves, Prepared;
      ghost var v := s.Now();
      KeptParts();
      RecordsNow();
      AskedKeeps(v);
      var ns :- Request(pieces, firstID);
      hide Ledgers.Ledger.Streamed, Ledgers.Ledger.Asked, Ledgers.Ledger.Open, Ledgers.Ledger.Window, Sessions.Session.Valid, Deduped;
      ghost var b := s.Now();
      assert Mail();
      NoteCalled(v, ns, e);
      assert Mail();
      clock, turns := clock + 1, turns + 1;
      assert s.Now() == b;
      KeptFrom();
      return Returned(ns);
    }

    lemma KeptParts()
      requires s.Valid() && Kept()
      ensures clock == |log| && Deduped() && Sound(s.Now())
      ensures Orderly(log, cfg.maxTurns, turns, repeats, lastBatch, w, drained, newest, phase, cfg.watcher)
      ensures Recounts(log, v0, marks, deduper.hash, shown, s.Now()) && Newer(log, w, v0, marks0, s.Now(), marks)
    {
      hide Sound, Orderly, Recounts, Newer, Deduped, Sessions.Session.Rooted, Sessions.Session.Now;
    }

    lemma KeptFrom()
      requires s.Valid() && clock == |log| && Deduped() && Sound(s.Now())
      requires Orderly(log, cfg.maxTurns, turns, repeats, lastBatch, w, drained, newest, phase, cfg.watcher)
      requires Recounts(log, v0, marks, deduper.hash, shown, s.Now()) && Newer(log, w, v0, marks0, s.Now(), marks)
      ensures Kept()
    {
      hide Sound, Orderly, Recounts, Newer, Deduped, Sessions.Session.Rooted, Sessions.Session.Now;
    }

    /** The call whose parts joined as ns, from the state v on. */
    ghost method NoteCalled(v: Ledger, ns: seq<Node>, e: Event)
      requires Sound(v) && v.Open() == Some({}) && RefsRun(ns, |v.nodes|) && AllOfCall(ns, v.records)
      requires Orderly(log, cfg.maxTurns, turns, repeats, lastBatch, w, drained, newest, phase, cfg.watcher) && !NudgeDue(log, repeats)
      requires Recounts(log, v0, marks, deduper.hash, shown, v) && Newer(log, w, v0, marks0, v, marks)
      requires e.Called? && MayCome(log, cfg.maxTurns, w, e) && v.start <= |v.trail| && e.prompt == v.Window() && |ns| == |BodiesIn(e.pieces)|
      requires v.Asked().Streamed(ns, BodiesIn(e.pieces)).Open() == Some(Elems(LiveRefs(ns)))
      requires phase.owed == [] && (!e.wrapUp ==> Prepared(phase, cfg.watcher))
      modifies this`log, this`newest, this`phase
      ensures log == old(log) + [e] && newest == Hears(old(newest), e) && !NudgeDue(log, repeats) && phase.owed == [] && !phase.polled
      ensures Orderly(log, cfg.maxTurns, turns + 1, repeats, lastBatch, w, drained, newest, phase, cfg.watcher)
      ensures var b := v.Asked().Streamed(ns, BodiesIn(e.pieces));
              && CallMade(v, b, ns, v.records) && Recounts(log, v0, marks, deduper.hash, shown, b)
              && Newer(log, w, v0, marks0, b, marks)
    {
      hide Sound, Orderly, Recounts, OpenCalls, NudgeDue, BodiesIn, MayCome, Newer;
      hide RefsRun, AllOfCall, Elems, LiveRefs, Flatten, CallMade, AreStreamed, Lists.FlatMap, Hears;
      CallJoins(log, v0, marks, deduper.hash, shown, v, ns, e);
      StreamsCounted(log, v0, marks, deduper.hash, shown, v);
      OrderlyHeard(log, cfg.maxTurns, turns, repeats, lastBatch, w, drained, newest, phase, cfg.watcher, e);
      NewerCalled(log, w, v0, marks0, v, ns, v.records, e, marks);
      log, newest, phase := log + [e], Hears(newest, e), Moves(phase, e);
    }

    lemma RecordsNow()
      requires s.Valid()
      ensures s.Now().records == s.records && s.Now().posts == s.posts && s.Now().nodes == s.tree.nodes
    {
    }

    /** The request goes out: the window as it is. What it brings joins under a record of its own. */
    method Request(pieces: seq<Piece>, firstID: string) returns (o: Outcome<seq<Node>>)
      requires s.Valid() && Sound(s.Now()) && s.Now().Open() == Some({})
      modifies s`leaf, s`records, s`streams, s`sent, s`fence, s.tree
      ensures s.Valid()
      ensures o.Returned? ==> s.Now() == old(s.Now()).Asked().Streamed(o.value, BodiesIn(pieces)) && Sound(s.Now())
      ensures o.Returned? ==> RefsRun(o.value, |old(s.Now()).nodes|) && AllOfCall(o.value, old(s.records))
      ensures o.Returned? ==> s.Now().Open() == Some(Elems(LiveRefs(o.value))) && CallsIn(BodiesIn(pieces)) == CallsOf(o.value)
      ensures o.Returned? ==> BodiesOf(o.value) == BodiesIn(pieces)
    {
      hide Sessions.Session.Rooted, Sessions.Session.Indexed, LinksBack, CallsBelow, Sessions.Session.Trail, Start;
      hide Sound;
      hide OpenCalls, AllClosed, Assembled, BodiesOf, CallsIn, RefsRun, AllOfCall, Elems, LiveRefs, Flatten;
      AskedKeeps(s.Now());
      s.sent, s.fence := |s.Trail()|, s.records;
      var ns :- s.StreamCall(pieces, firstID);
      return Returned(ns);
    }

    // --- a batch of tool calls

    /** A turn asks for these calls: the same as the last turn's, or a new batch. */
    method NoteBatch(calls: seq<ToolCall>, ghost refused: map<string, ToolOutput>)
      requires Steady() && calls != [] && log != [] && Meets(log[|log| - 1], Batch(calls, refused))
      modifies this`log, this`clock, this`lastBatch, this`repeats
      ensures Steady() && log == old(log) + [Batch(calls, refused)]
    {
      hide Sessions.Session.Rooted, Sessions.Session.Indexed, LinksBack, CallsBelow, Sessions.Session.Now, Sound;
      hide Orderly, Recounts, Mail, Dedup.OutputDeduper.Valid, Dedup.Digest, NudgeDue, Newer, Free, Meets, Fingerprint, Moves;
      var fp := BatchFingerprint(calls);
      NoteAsked(s.Now(), calls, refused);
      Repeated(fp);
      clock := clock + 1;
    }

    /** The batch with this fingerprint repeats the last one, or is a new one. */
    method Repeated(fp: string)
      modifies this`lastBatch, this`repeats
      ensures lastBatch == fp && repeats == if fp == old(lastBatch) then old(repeats) + 1 else 1
    {
      if fp == lastBatch {
        repeats := repeats + 1;
      } else {
        lastBatch, repeats := fp, 1;
      }
    }

    /** The batch is in the log; the counter and the text kept are still to move. */
    ghost method NoteAsked(v: Ledger, calls: seq<ToolCall>, refused: map<string, ToolOutput>)
      requires Orderly(log, cfg.maxTurns, turns, repeats, lastBatch, w, drained, newest, phase, cfg.watcher) && !NudgeDue(log, repeats)
      requires Recounts(log, v0, marks, deduper.hash, shown, v) && Sound(v) && Newer(log, w, v0, marks0, v, marks)
      requires calls != [] && log != [] && Meets(log[|log| - 1], Batch(calls, refused)) && phase.owed == []
      modifies this`log
      ensures log == old(log) + [Batch(calls, refused)] && Recounts(log, v0, marks, deduper.hash, shown, v)
      ensures Newer(log, w, v0, marks0, v, marks)
      ensures Orderly(log, cfg.maxTurns, turns, if Fingerprint(calls) == lastBatch then repeats + 1 else 1, Fingerprint(calls), w, drained, newest, phase, cfg.watcher)
      ensures !NudgeDue(log, if Fingerprint(calls) == lastBatch then repeats + 1 else 1)
    {
      hide Sound, Orderly, Recounts, NudgeDue, Meets, Fingerprint, Newer;
      ghost var e := Batch(calls, refused);
      OrderlyBatch(log, cfg.maxTurns, turns, repeats, lastBatch, w, drained, newest, phase, cfg.watcher, calls, refused);
      NotedKeeps(log, v0, marks, deduper.hash, shown, v, e);
      NewerNoted(log, w, v0, marks0, v, marks, e);
      log := log + [e];
    }

    /** The batch ran to its end. */
    method NoteRan(ghost refused: map<string, ToolOutput>, ghost calls: seq<ToolCall>, ghost asked: seq<ToolCall>, ghost outputs: seq<ToolOutput>)
      requires Steady() && repeats < StuckFailAt && log != [] && log[|log| - 1].Batch? && log[|log| - 1].refused == refused
      requires calls == w.batch(|log|) && Resolves(w, |log|, refused, calls, asked, outputs)
      modifies this`log, this`clock, this`phase
      ensures Steady() && log == old(log) + [Ran(calls, asked, outputs)] && s.Now() == old(s.Now()) && phase == old(phase)
    {
      hide KeptBut, Mail, Sessions.Session.Rooted, Sessions.Session.Indexed, LinksBack, CallsBelow;
      hide Sessions.Session.Now, MayCome, NudgeDue, Resolves;
      MayRun(log, cfg.maxTurns, w, refused, calls, asked, outputs);
      Note(Ran(calls, asked, outputs));
      NoteQuiet(log, repeats);
      clock := clock + 1;
    }

    /** Its results are recorded. The third batch of its kind in a row brings the nudge. */
    method NoteRecorded(ghost v: Ledger, ghost callNodes: seq<Ref>, ghost asked: seq<ToolCall>, ghost calls: seq<ToolCall>, ghost outputs: seq<ToolOutput>)
      returns (o: Outcome<nat>)
      requires Steady() && s.Now().Open() == Some({}) && RanLast(log, calls, outputs) && |calls| == |outputs|
      requires Standing(v, asked, calls, callNodes) && BatchBefore(log, asked)
      requires ShowsAll(v, s.Now(), callNodes, calls, outputs, marks, deduper.hash) && CallsMatch(s.Now().nodes, callNodes, calls)
      modifies this`log, this`clock, this`due, this`phase, this`drained, this`mail, s`leaf, s`records, s`foreign, s`posts, s.tree
      ensures o.Returned? ==> Between()
      ensures o.Returned? ==> log == old(log) + if repeats == StuckNudgeAt then [Recorded, Told(StuckNudge, FromLoop)] else [Recorded]
      ensures o.Returned? && repeats != StuckNudgeAt ==> s.Now() == old(s.Now())
    {
      hide KeptBut, Mail, Sessions.Session.Rooted, Sessions.Session.Indexed, LinksBack, CallsBelow;
      hide Sessions.Session.Now, MayCome, OpenCalls, LastShown, ShowsAll, CallsMatch, Standing;
      BatchShown(v, callNodes, asked, calls, outputs);
      MayRecord(log, cfg.maxTurns, w, calls, outputs);
      Note(Recorded);
      clock := clock + 1;
      if repeats == StuckNudgeAt {
        var _ :- Nudge();
      }
      return Returned(0);
    }

    lemma BatchShown(v: Ledger, callNodes: seq<Ref>, asked: seq<ToolCall>, calls: seq<ToolCall>, outputs: seq<ToolOutput>)
      requires s.Valid() && KeptBut() && RanLast(log, calls, outputs) && |calls| == |outputs|
      requires Standing(v, asked, calls, callNodes) && BatchBefore(log, asked)
      requires ShowsAll(v, s.Now(), callNodes, calls, outputs, marks, deduper.hash) && CallsMatch(s.Now().nodes, callNodes, calls)
      ensures LastShown(log, v0, s.Now(), marks, deduper.hash)
    {
      hide Sessions.Session.Now, Sound, Orderly, Newer, ShowsAll, CallsMatch, Standing, LastShown, Dedup.OutputDeduper.Valid;
      hide Prompted, Backed, AllShown, Genuine, Carries;
      ShownNow(log, v0, v, s.Now(), callNodes, asked, calls, outputs, marks, deduper.hash);
    }

    method Nudge() returns (o: Outcome<nat>)
      requires Ready() && s.Now().Open() == Some({}) && due == [] && NudgeDue(log, repeats) && shown == deduper.keys
      modifies this`log, this`clock, this`due, this`phase, this`drained, this`mail, s`leaf, s`records, s`foreign, s`posts, s.tree
      ensures o.Returned? ==> Between() && log == old(log) + [Told(StuckNudge, FromLoop)]
      ensures o.Returned? ==> AreTold(old(s.posts), s.posts, [StuckNudge])
    {
      hide Kept, Mail, Sessions.Session.Rooted, Sessions.Session.Indexed, LinksBack, CallsBelow;
      hide Sessions.Session.Now, OpenCalls, NodesOf, AllAlike, Onward, AreTold, MayCome;
      MayTell(log, cfg.maxTurns, w, StuckNudge, FromLoop);
      var _ :- Tell(StuckNudge, FromLoop);
      return Returned(0);
    }

    /** The host's say on the batch: the batch to run, or why it may not. Ids must be there and differ. */
    method AskHost(calls: seq<ToolCall>) returns (batch: seq<ToolCall>, err: Option<Error>)
      ensures batch == w.batch(clock)
      ensures err.None? ==> batch != [] && DistinctIds(batch)
    {
      batch := w.batch(clock);
      err := Any();
      if err.None? && (batch == [] || !DistinctIds(batch)) {
        err := Some(Error("the batch left no calls, or a call with an empty or repeated id", false, false));
      }
    }

    /** Records the host's replacement of the turn's batch. */
    method Replace(ns: seq<Node>, rec: nat, ghost asked: seq<ToolCall>, calls: seq<ToolCall>) returns (o: Outcome<seq<Ref>>)
      requires Steady() && TurnOpen(s.Now(), ns, rec) && s.Now().Open() == Some(Elems(LiveRefs(ns)))
      requires log != [] && log[|log| - 1].Batch? && log[|log| - 1].calls == asked != calls == w.batch(|log|)
      modifies s`leaf, s.tree
      ensures o.Returned? ==> Steady() && BatchOpen(s.Now(), o.value, calls, 0) && Standing(s.Now(), asked, calls, o.value)
    {
      hide Sessions.Session.Rooted, Sessions.Session.Indexed, LinksBack, CallsBelow, Sessions.Session.Trail, Start;
      hide Sound;
      hide Orderly, Recounts, Newer, Mail, OpenCalls, NudgeDue, Dedup.SameKeys, Dedup.Digest, TurnOpen, BatchOpen;
      hide LiveAmong, Makes, RefsRun, Standing, ReplacesNow, Trees.Placed;
      ghost var v := s.Now();
      NodesPlaced();
      BatchReplaces(asked, calls);
      StreamsCounted(log, v0, marks, deduper.hash, shown, v);
      TurnWithin(v, ns, rec);
      var ms :- s.ReplaceCalls(NodeRefs(ns), calls);
      ReplaceKeeps(log, v0, marks, deduper.hash, shown, v, ns, rec, ms, calls);
      NewerReplaced(log, w, v0, marks0, v, ns, rec, ms, asked, calls, marks);
      return Returned(NodeRefs(ms));
    }

    lemma NodesPlaced()
      requires s.Valid()
      ensures Trees.Placed(s.Now().nodes)
    {
      hide Sessions.Session.Trail, Sessions.Session.Indexed;
      s.tree.IsPlaced();
    }

    lemma BatchReplaces(asked: seq<ToolCall>, calls: seq<ToolCall>)
      requires Orderly(log, cfg.maxTurns, turns, repeats, lastBatch, w, drained, newest, phase, cfg.watcher)
      requires log != [] && log[|log| - 1].Batch? && log[|log| - 1].calls == asked != calls == w.batch(|log|)
      ensures ReplacesNow(log, w, calls)
    {
      hide Counted, Stuck, RunRecords.Follows;
      BatchAfterCall(log, cfg.maxTurns);
    }

    /** The calls run, in order where order matters: a hook, then the tool, unless the call's result was given from its
        stream. A failed hook stops the batch at once, a failed approval of a read at its end, and one of a change right
        there. */
    method Dispatch(calls: seq<ToolCall>, refused: map<string, ToolOutput>) returns (asked: seq<ToolCall>, results: seq<ToolOutput>, err: Option<Error>)
      ensures err.None? ==> Resolves(w, clock, refused, calls, asked, results)
    {
      asked, results, err := [], [], None;
      for i := 0 to |calls|
        invariant Resolves(w, clock, refused, calls[..i], asked, results)
      {
        var hooked := w.hook(clock, i);
        if hooked.None? {
          var failed: Error := Any();
          return asked, results, Some(failed);
        }
        var call := hooked.value;
        asked := asked + [call];
        if call.id in refused {
          results := results + [refused[call.id]];
          continue;
        }
        var failed: Option<Error> := Any();
        results := results + [w.output(clock, i)];
        if err.None? {
          err := failed;
        }
        var tool := FindTool(cfg.tools, call.name);
        if (tool.None? || !tool.value.readonly) && failed.Some? {
          return asked, results, err;
        }
      }
      assert calls[..|calls|] == calls;
    }

    /** The content to record for an output: itself, or the marker of a repeat. */
    method Condense(tool: Option<Tool>, output: ToolOutput) returns (content: string, deduped: bool)
      requires Steady()
      modifies deduper
      ensures Ready() && due == [] && !NudgeDue(log, repeats)
      ensures Condensed(shown, deduper.keys, deduper.hash, tool, output, content, deduped)
    {
      hide Sessions.Session.Valid, Sessions.Session.Now, Sound, Orderly, Recounts, Newer, Mail, NudgeDue;
      hide Dedup.SameKeys, Dedup.Digest, Dedup.Newest, Dedup.Marker, Dedup.MarkerHead, Dedup.Text;
      content, deduped := output.content, false;
      if cfg.dedup && tool.Some? {
        content, deduped := deduper.Collapse(tool.value.name, tool.value.readonly, output.content, output.isError);
      }
    }

    /** Records the result of the i-th call, unless a host's callback fails. */
    method RecordOne(callNodes: seq<Ref>, calls: seq<ToolCall>, i: nat, results: seq<ToolOutput>) returns (o: Outcome<Option<Error>>)
      requires Steady() && BatchOpen(s.Now(), callNodes, calls, i) && i < |callNodes| && i < |results| && RanLast(log, calls, results)
      modifies this`marks, this`shown, s`leaf, s.tree, deduper
      ensures o.Returned? ==> Ready() && due == [] && OwnCalls(s.Now(), callNodes)
      ensures o.Returned? && o.value.None? ==> Steady() && BatchOpen(s.Now(), callNodes, calls, i + 1) && i < |calls|
      ensures o.Returned? && o.value.None? ==> ShowsMore(old(s.Now()), s.Now(), callNodes[i], calls[i].name, results[i], old(marks), marks, deduper.hash)
    {
      hide Kept, Mail, Sessions.Session.Rooted, Sessions.Session.Indexed, LinksBack, CallsBelow;
      hide Sessions.Session.Now, NudgeDue, OpenCalls;
      hide BatchOpen, OwnCalls, CallsMatch, RanLast;
      BatchOwn(s.Now(), callNodes, calls, i);
      var tool := FindTool(cfg.tools, calls[i].name);
      FindNamed(cfg.tools, calls[i].name);
      var content, deduped := Condense(tool, results[i]);
      var early: Option<Error> := Any();
      if early.Some? {
        return Returned(early);
      }
      var _ :- Put(callNodes, calls, i, tool, results, content, deduped);
      var late: Option<Error> := Any();
      return Returned(late);
    }

    method Put(callNodes: seq<Ref>, calls: seq<ToolCall>, i: nat, ghost tool: Option<Tool>, results: seq<ToolOutput>, content: string, ghost deduped: bool)
      returns (o: Outcome<nat>)
      requires Ready() && due == [] && !NudgeDue(log, repeats) && BatchOpen(s.Now(), callNodes, calls, i) && i < |callNodes|
      requires i < |results| && RanLast(log, calls, results)
      requires tool.Some? ==> tool.value.name == calls[i].name
      requires Condensed(shown, deduper.keys, deduper.hash, tool, results[i], content, deduped)
      modifies this`marks, this`shown, s`leaf, s.tree
      ensures o.Returned? ==> Steady() && BatchOpen(s.Now(), callNodes, calls, i + 1) && OwnCalls(s.Now(), callNodes)
      ensures o.Returned? ==> ShowsMore(old(s.Now()), s.Now(), callNodes[i], calls[i].name, results[i], old(marks), marks, deduper.hash)
    {
      hide Sessions.Session.Rooted, Sessions.Session.Indexed, LinksBack, CallsBelow, Sessions.Session.Trail, Start;
      hide Sound, Orderly, Recounts;
      hide Mail, OpenCalls, NudgeDue, Dedup.SameKeys, Dedup.Digest, BatchOpen, OwnCalls, RanLast, Condensed;
      hide MarksAfter, ShowsOutput, MarksGrow, Newer, Records;
      ghost var v := s.Now();
      BatchAt(v, callNodes, calls, i);
      var r :- s.ToolResult(callNodes[i], content, results[i].isError, "");
      PutKeeps(log, v0, marks, deduper.hash, shown, deduper.keys, v, r, callNodes[i], tool, calls, results, i, content, deduped);
      IsResultBody(r, callNodes[i], v.nodes[callNodes[i]].body.callId, content, results[i].isError);
      BatchAnswered(v, callNodes, calls, i, r);
      NewerPut(log, w, v0, marks0, v, r, marks, MarksAfter(marks, r.ref, deduped, calls[i].name, deduper.hash(results[i].content)));
      marks := MarksAfter(marks, r.ref, deduped, calls[i].name, deduper.hash(results[i].content));
      shown := deduper.keys;
      BatchOwn(s.Now(), callNodes, calls, i + 1);
      return Returned(0);
    }

    /** Ends the run on final, from where nothing is open. */
    method Finish(final: Option<Message>, err: Option<Error>) returns (n: Next)
      requires Ready() && due == [] && s.Now().Open() == Some({})
      requires (final.Some? ==> CallFree(final.value)) && (err.None? ==> final.Some? && !Blank(final.value.content))
      requires Concludes(newest, phase.polled, final, err.Some?)
      ensures n.Over? && Ended(n.ending) && n.ending.final == final && n.ending.err == err
    {
      hide Kept, Mail, Sessions.Session.Rooted, Sessions.Session.Indexed, LinksBack, CallsBelow;
      hide Sessions.Session.Now, OpenCalls, CallFree, Blank, Fair, Flatten, Replies, Remains;
      var e := Done(final, err);
      n := Over(e);
    }

    /** Answers what is left open among refs with why, and ends the run. */
    method Stop(refs: seq<Ref>, reason: string, final: Option<Message>, err: Error) returns (o: Outcome<Next>)
      requires Ready() && due == [] && OwnCalls(s.Now(), refs) && (final.Some? ==> CallFree(final.value)) && reason != ""
      requires Remains(newest, phase.polled, final)
      modifies s`leaf, s.tree
      ensures o.Returned? ==> o.value.Over? && Ended(o.value.ending)
    {
      hide Kept, Mail, Sessions.Session.Rooted, Sessions.Session.Indexed, LinksBack, CallsBelow;
      hide Sessions.Session.Now, OpenCalls, OwnCalls, CallFree, Onward, Ended, Replies, Remains;
      var _ :- OmitRefs(refs, reason);
      var n := Finish(final, Some(err));
      return Returned(n);
    }

    /** Ends the run with the turn's calls unrun: each gets a result that says why. */
    method StopTurn(mc: ModelCall, assistant: Message, id: string, reason: string, err: Error) returns (o: Outcome<Next>)
      requires Steady() && mc.rec.Some? && TurnOpen(s.Now(), mc.nodes, mc.rec.value) && reason != ""
      requires AtTurn(newest, assistant, id) && !phase.polled
      modifies s`leaf, s.tree
      ensures o.Returned? ==> o.value.Over? && Ended(o.value.ending)
    {
      hide Kept, Mail, Sessions.Session.Rooted, Sessions.Session.Indexed, LinksBack, CallsBelow;
      hide Sessions.Session.Now, OpenCalls, OwnCalls, TurnOpen, CallFree, Ended, AtTurn, Replies, Remains;
      TurnWithin(s.Now(), mc.nodes, mc.rec.value);
      CallsCleared(assistant, id);
      TurnStops(newest, assistant, id);
      o := Stop(NodeRefs(mc.nodes), reason, Some(WithoutCalls(assistant, id)), err);
    }

    /** Records every result of a batch in call order: the path grows by them and nothing else, and each shows its
        output. */
    method RecordAll(callNodes: seq<Ref>, calls: seq<ToolCall>, results: seq<ToolOutput>) returns (o: Outcome<Option<Error>>)
      requires Steady() && BatchOpen(s.Now(), callNodes, calls, 0) && |results| == |calls| && RanLast(log, calls, results)
      modifies this`marks, this`shown, s`leaf, s.tree, deduper
      ensures o.Returned? ==> Ready() && due == [] && OwnCalls(s.Now(), callNodes)
      ensures o.Returned? && o.value.None? ==> Steady() && s.Now().Open() == Some({}) && CallsMatch(s.Now().nodes, callNodes, calls)
      ensures o.Returned? && o.value.None? ==> ShowsAll(old(s.Now()), s.Now(), callNodes, calls, results, marks, deduper.hash)
    {
      hide Kept, Mail, Sessions.Session.Rooted, Sessions.Session.Indexed, LinksBack, CallsBelow;
      hide Sessions.Session.Now, NudgeDue, OpenCalls;
      hide BatchOpen, OwnCalls, CallsMatch, ShowsAll, ShowsMore, RanLast;
      BatchOwn(s.Now(), callNodes, calls, 0);
      ghost var v := s.Now();
      ShowsNone(v, callNodes, calls, marks, deduper.hash);
      for i := 0 to |calls|
        invariant Steady() && BatchOpen(s.Now(), callNodes, calls, i)
        invariant ShowsAll(v, s.Now(), callNodes, calls, results[..i], marks, deduper.hash)
      {
        ghost var b, was := s.Now(), marks;
        var failed :- RecordOne(callNodes, calls, i, results);
        if failed.Some? {
          return Returned(failed);
        }
        ShowsThen(v, b, s.Now(), callNodes, calls, results, i, was, marks, deduper.hash);
      }
      assert results[..|calls|] == results;
      BatchOwn(s.Now(), callNodes, calls, |calls|);
      BatchDone(s.Now(), callNodes, calls);
      return Returned(None);
    }

    /** Runs the batch and records it. */
    method RunBatch(callNodes: seq<Ref>, ghost model: seq<ToolCall>, calls: seq<ToolCall>, refused: map<string, ToolOutput>, assistant: Message, id: string)
      returns (o: Outcome<Next>)
      requires Steady() && BatchOpen(s.Now(), callNodes, calls, 0) && repeats < StuckFailAt
      requires calls == w.batch(|log|) && log != [] && log[|log| - 1] == Batch(model, refused) && Standing(s.Now(), model, calls, callNodes)
      requires AtTurn(newest, assistant, id) && !phase.polled
      modifies this`log, this`clock, this`marks, this`shown, this`due, this`phase, this`drained, this`mail, s`leaf, s`records, s`foreign, s`posts, s.tree, deduper
      ensures o.Returned? ==> !o.value.Again? && Goes(o.value)
    {
      hide Kept, Mail, Sessions.Session.Rooted, Sessions.Session.Indexed, LinksBack, CallsBelow;
      hide Sessions.Session.Now, NudgeDue, OpenCalls;
      hide BatchOpen, OwnCalls, CallsMatch, CallFree, Ended, Fair, Resolves, ShowsAll, RanLast, Free, Standing, BatchBefore, AtTurn, Replies, Remains;
      BatchOwn(s.Now(), callNodes, calls, 0);
      Reckoned();
      ghost var v, was := s.Now(), log;
      var asked, results, err := Dispatch(calls, refused);
      if err.None? {
        AllResolved(w, clock, refused, calls, asked, results);
        NoteRan(refused, calls, asked, results);
        RanIsLast(was, log, model, refused, calls, asked, results);
        v := s.Now();
        err :- RecordAll(callNodes, calls, results);
      }
      if err.Some? {
        CallsCleared(assistant, id);
        TurnStops(newest, assistant, id);
        o := Stop(callNodes, "the batch was cancelled before this tool ran: " + err.value.text, Some(WithoutCalls(assistant, id)), err.value);
        return;
      }
      var _ :- NoteRecorded(v, callNodes, model, calls, results);
      return Returned(Further);
    }

    /** The turn asked for tools: the same batch too often ends the run, and the host may replace or refuse it. */
    method ToolBatch(mc: ModelCall, assistant: Message, id: string) returns (o: Outcome<Next>)
      requires Steady() && mc.rec.Some? && TurnOpen(s.Now(), mc.nodes, mc.rec.value)
      requires s.Now().Open() == Some(Elems(LiveRefs(mc.nodes)))
      requires assistant.toolCalls == CallsOf(mc.nodes) != [] && CalledLast(log, turn + 1, CallsOf(mc.nodes), mc.refused)
      requires AtTurn(newest, assistant, id) && !phase.polled
      modifies this`log, this`clock, this`lastBatch, this`repeats, this`marks, this`shown, this`due, this`phase, this`drained, this`mail
      modifies s`leaf, s`records, s`foreign, s`posts, s.tree, deduper
      ensures o.Returned? ==> !o.value.Again? && Goes(o.value)
    {
      hide Kept, Mail, Sessions.Session.Rooted, Sessions.Session.Indexed, LinksBack, CallsBelow;
      hide Sessions.Session.Now, NudgeDue, OpenCalls;
      hide BatchOpen, OwnCalls, TurnOpen, CallFree, Ended, Fair, LiveAmong, CallsOf, CalledLast, Meets, Free, Standing, AtTurn;
      var calls := assistant.toolCalls;
      CalledMeets(log, turn + 1, calls, mc.refused);
      NoteBatch(calls, mc.refused);
      if repeats >= StuckFailAt {
        o := StopTurn(mc, assistant, id, "the run stopped: the same tool calls repeated", StuckError);
        return;
      }
      Reckoned();
      var expanded, refusal := AskHost(calls);
      if refusal.Some? {
        o := StopTurn(mc, assistant, id, "the batch was cancelled before it ran: " + refusal.value.text, refusal.value);
        return;
      }
      var callNodes := Batched(mc.nodes, mc.rec.value, calls);
      if calls != expanded {
        callNodes :- Replace(mc.nodes, mc.rec.value, calls, expanded);
      }
      AtTurnAnyway(newest, assistant, id, expanded);
      o := RunBatch(callNodes, calls, expanded, mc.refused, assistant.(toolCalls := expanded), id);
    }

    /** The turn's own calls, as nodes. */
    method Batched(ns: seq<Node>, rec: nat, calls: seq<ToolCall>) returns (callNodes: seq<Ref>)
      requires Steady() && TurnOpen(s.Now(), ns, rec) && s.Now().Open() == Some(Elems(LiveRefs(ns))) && calls == CallsOf(ns)
      ensures BatchOpen(s.Now(), callNodes, calls, 0) && Standing(s.Now(), calls, calls, callNodes)
    {
      hide Orderly, Recounts, Newer, Mail, Sound, NudgeDue, Dedup.SameKeys, Dedup.Digest, BatchOpen, TurnOpen, Standing;
      hide LiveAmong, CallsOf, OpenCalls;
      hide Sessions.Session.Rooted, Sessions.Session.Indexed, LinksBack, CallsBelow, Sessions.Session.Trail;
      TurnWithin(s.Now(), ns, rec);
      OwnBatch(s.Now(), ns, rec);
      callNodes := s.ToolCalls(NodeRefs(ns));
    }

    // --- the turn ends without tools

    predicate More()
      reads this`turn
    {
      cfg.maxTurns <= 0 || turn < cfg.maxTurns - 1
    }

    /** A turn that ends may ask once more for its answer, where there are tools and turns left. */
    function WrapUpCalls(): nat
      reads this`turn
    {
      if cfg.tools != [] && More() then 1 else 0
    }

    /** The turn's answer; when it wrote none, its reasoning or a placeholder, which joins the turn as text. */
    method Surface(rec: nat, assistant: Message, id: string) returns (o: Outcome<Message>)
      requires Between() && MayText(s.Now(), rec) && IsTurn(newest, assistant, id)
      modifies s`leaf, s.tree
      ensures o.Returned? ==> newest.turn.Some? && newest.turn.value.Called? && o.value == TurnAnswer(newest)
      ensures o.Returned? ==> Between() && CallFree(o.value) && !Blank(o.value.content)
      ensures o.Returned? ==> Surfaced(old(s.Now()), s.Now(), rec, assistant, o.value)
    {
      hide Kept, Mail, Sessions.Session.Rooted, Sessions.Session.Indexed, LinksBack, CallsBelow;
      hide Sessions.Session.Now, NudgeDue, OpenCalls;
      hide Onward, MayText, CallFree, Alike, Blank, Free, TurnAnswer, Speaks;
      CallsCleared(assistant, id);
      TurnSurfaces(newest, assistant, id);
      var final := WithoutCalls(assistant, id);
      if Blank(final.content) {
        final := final.(content := FallbackOutput(assistant));
        CallsClearedStill(assistant, id, final.content);
        var _ :- Text(rec, final.content);
      }
      return Returned(final);
    }

    /** Ends the run on final, unless something new has come in and a further turn is allowed. */
    method Answer(final: Message) returns (o: Outcome<Next>)
      requires Between() && CallFree(final) && !Blank(final.content) && Replies(newest, Some(final))
      modifies this`log, this`clock, this`due, this`phase, this`drained, this`mail, s`leaf, s`records, s`foreign, s`posts, s.tree, q`items, q`accepted
      ensures o.Returned? ==> !o.value.Again? && Goes(o.value) && (!More() ==> o.value.Over?)
    {
      hide Kept, Mail, Sessions.Session.Rooted, Sessions.Session.Indexed, LinksBack, CallsBelow;
      hide Sessions.Session.Now, NudgeDue, OpenCalls, CallFree, Blank, Ended, Free, Replies, Remains;
      Arrive();
      if q.Pending() && More() {
        return Returned(Further);
      }
      if More() {
        var inbox :- DrainInbox();
        if |inbox| > 0 {
          return Returned(Further);
        }
      }
      var e := Finish(Some(final), None);
      return Returned(e);
    }

    /** One more request, without tools, for the answer the turn did not write; none when that fails too. */
    method AskAnswer(rec: nat, ghost assistant: Message, id: string) returns (o: Outcome<Option<Next>>)
      requires Between() && MayText(s.Now(), rec) && More() && AtTurn(newest, assistant, id) && Blank(assistant.content)
      modifies this`log, this`clock, this`turns, this`newest, this`due, this`phase, this`drained, this`mail
      modifies s`leaf, s`records, s`foreign, s`posts, s`streams, s`sent, s`fence, s.tree, q`items, q`accepted
      ensures o.Returned? ==> old(turns) <= turns <= old(turns) + 1
      ensures o.Returned? && o.value.Some? ==> !o.value.value.Again? && Goes(o.value.value)
      ensures o.Returned? && o.value.None? ==> Between() && MayText(s.Now(), rec) && IsTurn(newest, assistant, id) && !WroteWrapUp(newest)
    {
      hide Kept, Mail, Sessions.Session.Rooted, Sessions.Session.Indexed, LinksBack, CallsBelow;
      hide Sessions.Session.Now, NudgeDue, OpenCalls;
      hide Goes, CallFree, Blank, Turn, NodesOf, MayText, OwnCalls, Free, Replies, Remains, HeardAs, WroteWrapUp, Speaks;
      var called :- CallWrapUp(rec);
      var mc, err := called.0, called.1;
      var omitted := NodeRefs(mc.nodes);
      var answer := Turn(mc.nodes);
      var _ :- CloseRefs(rec, omitted);
      if err.None? && !Blank(answer.content) {
        CallsCleared(answer, id);
        WrapUpAnswers(newest, assistant, id, mc.nodes);
        var n :- Answer(WithoutCalls(answer, id));
        return Returned(Some(n));
      }
      if mc.rec.Some? {
        WrapUpSilent(newest, err.Some?, mc.nodes);
      } else {
        NoWrapUp(newest, assistant, id);
      }
      return Returned(None);
    }

    method CallWrapUp(rec: nat) returns (o: Outcome<(ModelCall, Option<Error>)>)
      requires Between() && MayText(s.Now(), rec) && More()
      modifies this`log, this`clock, this`turns, this`newest, this`due, this`phase, this`drained, this`mail
      modifies s`leaf, s`records, s`foreign, s`posts, s`streams, s`sent, s`fence, s.tree
      ensures o.Returned? ==> old(turns) <= turns <= old(turns) + 1
      ensures o.Returned? ==> Steady() && OwnCalls(s.Now(), NodeRefs(o.value.0.nodes)) && MayText(s.Now(), rec) && Free(log, cfg.maxTurns)
      ensures o.Returned? ==> newest.turn == old(newest.turn)
      ensures o.Returned? ==>
                if o.value.0.rec.Some? then HeardAs(newest.call, true, "", o.value.1.Some?, o.value.0.nodes)
                else o.value.1.Some? && newest == old(newest)
    {
      hide Kept, Mail, Sessions.Session.Rooted, Sessions.Session.Indexed, LinksBack, CallsBelow;
      hide Sessions.Session.Now, NudgeDue, OpenCalls;
      hide Goes, CallFree, Blank, Turn, NodesOf, MayText, OwnCalls, CallMade, Flatten, Free, WindowEnds, LogsCall, HeardAs;
      var _ :- TellWrapUp(rec);
      var msgs := Transcript();
      ghost var a, was := s.Now(), log;
      var called :- Call(turn + 2, msgs, [], true, "");
      if called.0.rec.Some? {
        WrapUpMade(a, s.Now(), called.0.nodes, called.0.rec.value, rec);
        WrapUpFree(was, log, turn + 2, msgs, [], called.0, called.1.Some?, cfg.maxTurns);
      } else {
        NoneOwn(s.Now());
      }
      return Returned(called);
    }

    /** The notice ends the turn on the window. */
    method TellWrapUp(rec: nat) returns (o: Outcome<nat>)
      requires Between() && MayText(s.Now(), rec)
      modifies this`log, this`clock, this`due, this`phase, this`drained, this`mail, s`leaf, s`records, s`foreign, s`posts, s.tree
      ensures o.Returned? ==> Between() && MayText(s.Now(), rec) && rec < s.Now().records && WindowEnds(s.Now())
    {
      hide Kept, Mail, Sessions.Session.Rooted, Sessions.Session.Indexed, LinksBack, CallsBelow;
      hide Sessions.Session.Now, NudgeDue, OpenCalls;
      hide MayText, AllAlike, MayCome, AreTold, Onward, NodesOf;
      ghost var v := s.Now();
      TextWithin(v, rec);
      RecordsNow();
      MayTell(log, cfg.maxTurns, w, WrapUp, FromLoop);
      var ns :- Tell(WrapUp, FromLoop);
      ToldQuiet(old(log), cfg.maxTurns, repeats, WrapUp, FromLoop);
      MayTextOnward(v, s.Now(), rec);
      WrapUpEnds(v, ns, s.dialect, v.records);
      TextWithin(s.Now(), rec);
      return Returned(0);
    }

    /** Answers what is left open among refs; the turn of rec may still take text. */
    method CloseRefs(rec: nat, refs: seq<Ref>) returns (o: Outcome<nat>)
      requires Steady() && OwnCalls(s.Now(), refs) && MayText(s.Now(), rec) && Free(log, cfg.maxTurns)
      modifies s`leaf, s.tree
      ensures o.Returned? ==> Between() && MayText(s.Now(), rec)
    {
      hide Kept, Mail, Sessions.Session.Rooted, Sessions.Session.Indexed, LinksBack, CallsBelow;
      hide Sessions.Session.Now, NudgeDue, OpenCalls, OwnCalls, MayText, Onward, Free;
      ghost var v := s.Now();
      var _ :- OmitRefs(refs, "the run is ending, so this tool call was not run");
      MayTextOnward(v, s.Now(), rec);
      return Returned(0);
    }

    /** With sub-agents pending: their reports are queued for another turn, or told at once on the last. */
    method Subagents(rec: nat, assistant: Message, id: string) returns (o: Outcome<Option<Next>>)
      requires Between() && MayText(s.Now(), rec) && AtTurn(newest, assistant, id) && (More() ==> Toolless(newest))
      modifies this`log, this`clock, this`got, this`due, this`phase, this`drained, this`mail, s`leaf, s`records, s`foreign, s`posts, s.tree, q
      ensures o.Returned? && o.value.Some? ==> !o.value.value.Again? && Goes(o.value.value) && (!More() ==> o.value.value.Over?)
      ensures o.Returned? && o.value.None? ==> Between() && MayText(s.Now(), rec)
      ensures o.Returned? && o.value == Some(Further) ==> log == old(log) && exists report :: q.items == old(q.items) + Handed(q.closed, report)
    {
      hide Kept, Mail, Sessions.Session.Rooted, Sessions.Session.Indexed, LinksBack, CallsBelow;
      hide Sessions.Session.Now, NudgeDue, OpenCalls;
      hide CallFree, Blank, MayText, Ended, Free, Replies, Remains, Speaks, TurnAnswer;
      NoWrapUp(newest, assistant, id);
      SurfaceAnswers(newest, assistant, id);
      var report: Option<string> := Any();
      if !More() {
        if report.Some? {
          var final :- Surface(rec, assistant, id);
          Deliver(report.value);
          var _ :- Drain();
          var n := Finish(Some(final), None);
          return Returned(Some(n));
        }
        return Returned(None);
      }
      var failed: Option<Error> := Any();
      if failed.Some? && failed.value.cancelled {
        var final :- Surface(rec, assistant, id);
        var n := Finish(Some(final), None);
        return Returned(Some(n));
      }
      if failed.Some? {
        Silence(newest, phase.polled);
        var n := Finish(None, failed);
        return Returned(Some(n));
      }
      if report.Some? {
        Deliver(report.value);
        return Returned(Some(Further));
      }
      return Returned(None);
    }

    /** A turn that runs nothing: it gives the ending, or Further when there is something new to answer. */
    method EndTurn(mc: ModelCall, assistant: Message, id: string) returns (o: Outcome<Next>)
      requires Steady() && mc.rec.Some? && OwnCalls(s.Now(), NodeRefs(mc.nodes)) && MayText(s.Now(), mc.rec.value) && Free(log, cfg.maxTurns)
      requires AtTurn(newest, assistant, id) && (More() ==> Toolless(newest))
      modifies this`log, this`clock, this`turns, this`newest, this`got, this`due, this`phase, this`drained, this`mail
      modifies s`leaf, s`records, s`foreign, s`posts, s`streams, s`sent, s`fence, s.tree, q
      ensures o.Returned? ==> !o.value.Again? && Goes(o.value)
      ensures o.Returned? ==> old(turns) <= turns <= old(turns) + WrapUpCalls()
      ensures o.Returned? && !More() ==> o.value.Over?
    {
      hide Ready, NudgeDue, OpenCalls, OwnCalls, MayText, CallFree, Blank, Goes, Between, Steady, Free, AtTurn, Replies, Remains;
      var rec := mc.rec.value;
      var _ :- CloseRefs(rec, NodeRefs(mc.nodes));
      var pending: bool := Any();
      if cfg.subagents && pending {
        var next :- Subagents(rec, assistant, id);
        if next.Some? {
          return Returned(next.value);
        }
      }
      if !Blank(assistant.content) {
        CallsCleared(assistant, id);
        TurnAnswers(newest, assistant, id);
        o := Answer(WithoutCalls(assistant, id));
        return;
      }
      o := EndSilent(rec, assistant, id);
    }

    /** The turn wrote no answer: what is queued comes first, then one more request, then the reasoning itself. */
    method EndSilent(rec: nat, assistant: Message, id: string) returns (o: Outcome<Next>)
      requires Between() && MayText(s.Now(), rec) && AtTurn(newest, assistant, id) && Blank(assistant.content)
      modifies this`log, this`clock, this`turns, this`newest, this`due, this`phase, this`drained, this`mail
      modifies s`leaf, s`records, s`foreign, s`posts, s`streams, s`sent, s`fence, s.tree, q`items, q`accepted
      ensures o.Returned? ==> !o.value.Again? && Goes(o.value)
      ensures o.Returned? ==> old(turns) <= turns <= old(turns) + WrapUpCalls()
      ensures o.Returned? && !More() ==> o.value.Over?
    {
      hide Kept, Mail, Sessions.Session.Rooted, Sessions.Session.Indexed, LinksBack, CallsBelow;
      hide Sessions.Session.Now, NudgeDue, OpenCalls, MayText, CallFree, Blank, Free, Replies, Remains, Speaks, TurnAnswer, WroteWrapUp;
      NoWrapUp(newest, assistant, id);
      Arrive();
      if q.Pending() && More() {
        var _ :- Surface(rec, assistant, id);
        return Returned(Further);
      }
      if |cfg.tools| > 0 && More() {
        var next :- AskAnswer(rec, assistant, id);
        if next.Some? {
          return Returned(next.value);
        }
      }
      SurfaceAnswers(newest, assistant, id);
      var final :- Surface(rec, assistant, id);
      o := Answer(final);
    }

    // --- the loop

    /** The call failed, or the host stopped it: one overflow a turn compacts and asks again, anything else ends the run. */
    method Failed(mc: ModelCall, err: Error, id: string) returns (o: Outcome<Next>)
      requires Steady() && OwnCalls(s.Now(), NodeRefs(mc.nodes))
      requires mc.nodes == [] ==> s.Now().Open() == Some({}) && Free(log, cfg.maxTurns)
      requires if mc.rec.Some? then HeardAs(newest.call, false, id, true, mc.nodes) && newest.turn == newest.call else mc == NotMade
      requires phase.polled <==> mc.rec.None?
      modifies this`overflowTurn, this`lastComp, this`lastSent, this`log, this`clock, this`shown, s`leaf, s`window, s`sent, s`fence, s.tree, deduper
      ensures o.Returned? ==> Goes(o.value) && !o.value.Further?
      ensures o.Returned? && o.value.Again? ==> cfg.autoCompact > 0.0 && old(overflowTurn) != Some(turn) && overflowTurn == Some(turn)
    {
      hide Kept, Mail, Sessions.Session.Rooted, Sessions.Session.Indexed, LinksBack, CallsBelow;
      hide Sessions.Session.Now, NudgeDue, OpenCalls, OwnCalls, CallFree, Ended, Turn, Free, HeardAs, Replies, Remains;
      if err.overflow && cfg.autoCompact > 0.0 && mc.comp.None? && |mc.nodes| == 0 && overflowTurn != Some(turn) {
        overflowTurn := Some(turn);
        var compacted :- CompactNow();
        if compacted {
          lastComp, lastSent := None, 0;
          return Returned(Next.Again);
        }
      }
      var reason := "the call ended before this tool ran: " + err.text;
      if mc.comp.Some? || |mc.nodes| > 0 {
        CallsCleared(Turn(mc.nodes), id);
        CallStops(newest, mc.nodes, id);
        o := Stop(NodeRefs(mc.nodes), reason, Some(WithoutCalls(Turn(mc.nodes), id)), err);
      } else {
        if mc.rec.Some? {
          NothingHeard(newest, id, false);
        } else {
          Silence(newest, true);
        }
        o := Stop(NodeRefs(mc.nodes), reason, None, err);
      }
    }

    /** The turn's output is checked against what the tree held before. */
    method Check() returns (lost: Option<seq<string>>)
      requires Steady()
      modifies s`index, s`checked
      ensures lost.None?
      ensures Steady() && s.Now() == old(s.Now())
    {
      hide Sessions.Session.Rooted, Sessions.Session.Indexed, LinksBack, CallsBelow, Sessions.Session.Trail, Start;
      hide Sound;
      hide Orderly, Recounts, Newer, Mail, NudgeDue, Dedup.SameKeys, Dedup.Digest;
      lost := s.CheckMonotonic();
    }

    /** The call went through: its output is checked, the window may be known better now, and the turn goes on. */
    method Continue(mc: ModelCall, id: string) returns (o: Outcome<Next>)
      requires Steady() && mc.rec.Some? && TurnOpen(s.Now(), mc.nodes, mc.rec.value)
      requires s.Now().Open() == Some(Elems(LiveRefs(mc.nodes))) && CalledLast(log, turn + 1, CallsOf(mc.nodes), mc.refused)
      requires HeardAs(newest.call, false, id, false, mc.nodes) && newest.turn == newest.call && !phase.polled
      modifies this`window, this`lastComp, this`lastBatch, this`repeats, this`log, this`clock, this`marks, this`shown, this`turns, this`newest, this`phase
      modifies this`got, this`due, this`drained, this`mail, s`index, s`checked
      modifies s`leaf, s`records, s`foreign, s`posts, s`streams, s`sent, s`fence, s.tree, q, deduper
      ensures o.Returned? ==> Goes(o.value) && !o.value.Again?
      ensures o.Returned? ==> old(turns) <= turns <= old(turns) + WrapUpCalls()
      ensures o.Returned? && !More() ==> o.value.Over?
    {
      hide Kept, Mail, Sessions.Session.Rooted, Sessions.Session.Indexed, LinksBack, CallsBelow;
      hide Sessions.Session.Now, NudgeDue, OpenCalls;
      hide OwnCalls, TurnOpen, CallFree, Ended, Turn, CalledLast, CallsOf, HeardAs, AtTurn;
      var assistant := TurnMessage(mc, id);
      var lost := Check();
      lastComp := mc.comp;
      window := Any();
      var failed: Option<Error> := Any();
      if failed.Some? {
        o := StopTurn(mc, assistant, id, "the run stopped before this tool ran: " + failed.value.text, failed.value);
        return;
      }
      o := Act(mc, assistant, id);
    }

    /** The turn's flat message, on the host's row. */
    method TurnMessage(mc: ModelCall, id: string) returns (assistant: Message)
      requires HeardAs(newest.call, false, id, false, mc.nodes) && newest.turn == newest.call
      ensures AtTurn(newest, assistant, id) && assistant.toolCalls == CallsOf(mc.nodes) && (assistant.toolCalls == [] ==> Toolless(newest))
    {
      hide Turn, CallsOf, HeardAs, AtTurn, Speaks;
      assistant := MessageFromNodes(mc.nodes);
      TurnSpeaks(mc.nodes);
      TurnHeard(newest, mc.nodes, id);
      TurnCalls(mc.nodes);
      if CallsOf(mc.nodes) == [] {
        HeardToolless(newest, id, mc.nodes);
      }
      if id != "" {
        assistant := assistant.(id := id);
      }
    }

    /** The turn's tools run, or the turn ends. */
    method Act(mc: ModelCall, assistant: Message, id: string) returns (o: Outcome<Next>)
      requires Steady() && mc.rec.Some? && TurnOpen(s.Now(), mc.nodes, mc.rec.value)
      requires s.Now().Open() == Some(Elems(LiveRefs(mc.nodes))) && assistant.toolCalls == CallsOf(mc.nodes)
      requires CalledLast(log, turn + 1, CallsOf(mc.nodes), mc.refused) && AtTurn(newest, assistant, id) && !phase.polled
      requires assistant.toolCalls == [] ==> Toolless(newest)
      modifies this`lastBatch, this`repeats, this`log, this`clock, this`marks, this`shown, this`turns, this`newest, this`phase
      modifies this`got, this`due, this`drained, this`mail
      modifies s`leaf, s`records, s`foreign, s`posts, s`streams, s`sent, s`fence, s.tree, q, deduper
      ensures o.Returned? ==> Goes(o.value) && !o.value.Again?
      ensures o.Returned? ==> old(turns) <= turns <= old(turns) + WrapUpCalls()
      ensures o.Returned? && !More() ==> o.value.Over?
    {
      hide Kept, Mail, Sessions.Session.Rooted, Sessions.Session.Indexed, LinksBack, CallsBelow;
      hide Sessions.Session.Now, NudgeDue, OpenCalls;
      hide OwnCalls, MayText, TurnOpen, Goes, CallsOf, CalledLast, Free, AtTurn;
      if |assistant.toolCalls| > 0 && More() {
        o := ToolBatch(mc, assistant, id);
      } else {
        TurnWithin(s.Now(), mc.nodes, mc.rec.value);
        TurnMayText(s.Now(), mc.nodes, mc.rec.value);
        CalledFree(log, cfg.maxTurns, turn + 1, CallsOf(mc.nodes), mc.refused);
        o := EndTurn(mc, assistant, id);
      }
    }

    /** What a pass that made so many calls may decide. */
    predicate PassMay(n: Next, calls: nat)
      reads this`turn
    {
      match n
      case Again => cfg.autoCompact > 0.0 && calls <= 1
      case Further => More() && 1 <= calls <= 1 + WrapUpCalls()
      case Over(_) => calls <= 1 + WrapUpCalls()
    }

    /** The turn's call, and what follows from it. */
    method Ask(tools: seq<Tool>, id: string) returns (o: Outcome<Next>)
      requires Between() && Prepared(phase, cfg.watcher)
      requires cfg.maxTurns > 0 ==> turn < cfg.maxTurns && (turn == cfg.maxTurns - 1 ==> tools == [])
      modifies this`window, this`lastComp, this`lastSent, this`overflowTurn, this`lastBatch, this`repeats
      modifies this`log, this`clock, this`marks, this`shown, this`turns, this`newest, this`got, this`due, this`phase, this`drained, this`mail
      modifies s`index, s`checked, s`leaf, s`window, s`records, s`foreign, s`posts, s`streams, s`sent, s`fence, s.tree, q, deduper
      ensures o.Returned? ==> Goes(o.value)
      ensures o.Returned? && o.value.Again? ==> old(overflowTurn) != Some(turn) && overflowTurn == Some(turn)
      ensures o.Returned? ==> old(turns) <= turns && PassMay(o.value, turns - old(turns))
    {
      hide Kept, Mail, Sessions.Session.Rooted, Sessions.Session.Indexed, LinksBack, CallsBelow;
      hide Sessions.Session.Now, NudgeDue, OpenCalls;
      hide OwnCalls, TurnOpen, Goes, Flatten, MayText, Free, CallsOf, CalledLast, HeardAs;
      var called :- Place(tools, id);
      if called.1.None? {
        o := Continue(called.0, id);
      } else {
        o := Failed(called.0, called.1.value, id);
      }
    }

    /** The window goes out, and what it brings joins: the turn is open, or what is left of it is to be answered. */
    method Place(tools: seq<Tool>, id: string) returns (o: Outcome<(ModelCall, Option<Error>)>)
      requires Between() && Prepared(phase, cfg.watcher)
      requires cfg.maxTurns > 0 ==> turn < cfg.maxTurns && (turn == cfg.maxTurns - 1 ==> tools == [])
      modifies this`lastSent, this`log, this`clock, this`turns, this`newest, this`phase, s`leaf, s`records, s`streams, s`sent, s`fence, s.tree
      ensures o.Returned? ==> Steady() && turns == old(turns) + if o.value.0.rec.Some? then 1 else 0
      ensures o.Returned? && o.value.1.None? ==>
                && o.value.0.rec.Some? && TurnOpen(s.Now(), o.value.0.nodes, o.value.0.rec.value)
                && s.Now().Open() == Some(Elems(LiveRefs(o.value.0.nodes))) && CalledLast(log, turn + 1, CallsOf(o.value.0.nodes), o.value.0.refused)
      ensures o.Returned? && o.value.1.Some? ==>
                OwnCalls(s.Now(), NodeRefs(o.value.0.nodes)) && (o.value.0.nodes == [] ==> s.Now().Open() == Some({}) && Free(log, cfg.maxTurns))
      ensures o.Returned? ==>
                if o.value.0.rec.Some? then HeardAs(newest.call, false, id, o.value.1.Some?, o.value.0.nodes) && newest.turn == newest.call
                else o.value.0 == NotMade && o.value.1.Some?
      ensures o.Returned? ==> (phase.polled <==> o.value.0.rec.None?)
    {
      hide Kept, Mail, Sessions.Session.Rooted, Sessions.Session.Indexed, LinksBack, CallsBelow;
      hide Sessions.Session.Now, NudgeDue, OpenCalls;
      hide OwnCalls, TurnOpen, Flatten, MayText, Free, CallsOf, CalledLast, LogsCall, Elems, LiveRefs, NodeRefs, HeardAs;
      var msgs := Transcript();
      lastSent := |msgs|;
      ghost var was := log;
      var called :- Call(turn + 1, msgs, tools, false, id);
      var mc := called.0;
      if mc.rec.Some? {
        CallOwn(s.Now(), mc.nodes, mc.rec.value);
        if called.1.None? {
          CalledIs(was, log, turn + 1, msgs, tools, mc);
        } else {
          FailedFree(was, log, turn + 1, msgs, tools, mc, cfg.maxTurns);
        }
      } else {
        NoneOwn(s.Now());
      }
      return Returned(called);
    }

    /** One pass of the loop. The last permitted turn always ends the run, or asks again after an overflow. */
    method Body() returns (o: Outcome<Next>)
      requires Between() && (cfg.maxTurns > 0 ==> turn < cfg.maxTurns)
      modifies this`window, this`lastComp, this`lastSent, this`overflowTurn, this`lastBatch, this`repeats
      modifies this`log, this`clock, this`marks, this`shown, this`turns, this`newest, this`got, this`due, this`phase, this`drained, this`mail
      modifies s`index, s`checked, s`leaf, s`window, s`records, s`foreign, s`posts, s`streams, s`sent, s`fence, s.tree, q, deduper
      ensures o.Returned? ==> Goes(o.value)
      ensures o.Returned? && o.value.Again? ==> old(overflowTurn) != Some(turn) && overflowTurn == Some(turn)
      ensures o.Returned? ==> old(turns) <= turns && PassMay(o.value, turns - old(turns))
    {
      hide Kept, Mail, Sessions.Session.Rooted, Sessions.Session.Indexed, LinksBack, CallsBelow;
      hide Sessions.Session.Now, NudgeDue, OpenCalls;
      hide CallFree, Ended, Flatten, Free, Replies, Remains;
      var stopped :- Boundary();
      Silence(newest, true);
      if stopped.Some? {
        var n := Finish(None, stopped);
        return Returned(n);
      }
      var turnTools := if cfg.maxTurns > 0 && turn == cfg.maxTurns - 1 then [] else cfg.tools;
      var id: string := Any();
      var unannounced: Option<Error> := Any();
      if unannounced.Some? {
        var n := Finish(None, unannounced);
        return Returned(n);
      }
      o := Ask(turnTools, id);
    }

    /** Passes of the loop, at most `fuel` of them; none when the run still goes on after those. What the passes say of
        the calls is in RunPasses. */
    method Turns(fuel: nat) returns (o: Outcome<Option<Ending>>, ghost passes: seq<RunPasses.Pass>)
      requires Between() && turn == 0 && turns == 0 && overflowTurn.None?
      modifies this`window, this`turn, this`lastComp, this`lastSent, this`overflowTurn, this`lastBatch, this`repeats
      modifies this`log, this`clock, this`marks, this`shown, this`turns, this`newest, this`got, this`due, this`phase, this`drained, this`mail
      modifies s`index, s`checked, s`leaf, s`window, s`records, s`foreign, s`posts, s`streams, s`sent, s`fence, s.tree, q, deduper
      ensures o.Returned? && o.value.Some? ==> Ended(o.value.value) && RunPasses.LastIs(passes, RunPasses.Ended)
      ensures o.Returned? && o.value.None? ==> Between() && |passes| == fuel
      ensures o.Returned? ==> RunPasses.Legal(LimitsOf(cfg), passes) && RunPasses.Sum(passes) == turns
      ensures o.Returned? && cfg.maxTurns > 0 && fuel >= 2 * cfg.maxTurns ==> o.value.Some?
    {
      hide Between, Ended, RunPasses.Legal, RunPasses.Sum, RunPasses.TurnOf, RunPasses.Allowed;
      var left := fuel;
      passes := [];
      RunPasses.NoneLegal(LimitsOf(cfg));
      while left > 0
        invariant Between() && (cfg.maxTurns > 0 ==> turn < cfg.maxTurns) && |passes| + left == fuel
        invariant RunPasses.Legal(LimitsOf(cfg), passes) && RunPasses.Sum(passes) == turns && RunPasses.TurnOf(passes) == turn
        invariant !RunPasses.LastIs(passes, RunPasses.Ended)
        invariant RunPasses.LastIs(passes, RunPasses.Overflowed) ==> overflowTurn == Some(turn)
        decreases left
      {
        left := left - 1;
        ghost var made := turns;
        var next :- Body();
        ghost var p := PassOf(next, turns - made);
        PassAllowed(passes, next, turns - made);
        RunPasses.LegalMore(LimitsOf(cfg), passes, p);
        passes := passes + [p];
        match next {
          case Over(e) => return Returned(Some(e)), passes;
          case Again =>
          case Further => turn := turn + 1;
        }
      }
      if cfg.maxTurns > 0 {
        RunPasses.PassBounds(LimitsOf(cfg), passes);
      }
      return Returned(None), passes;
    }

    lemma PassAllowed(before: seq<RunPasses.Pass>, n: Next, calls: nat)
      requires PassMay(n, calls) && RunPasses.TurnOf(before) == turn && (cfg.maxTurns > 0 ==> turn < cfg.maxTurns)
      requires !RunPasses.LastIs(before, RunPasses.Ended) && (n.Again? ==> !RunPasses.LastIs(before, RunPasses.Overflowed))
      ensures RunPasses.Allowed(LimitsOf(cfg), before, PassOf(n, calls))
    {
    }

    ghost function Written(passes: seq<RunPasses.Pass>): Diary
      reads this
    {
      Diary(log, marks, drained, mail, passes)
    }

    /** What a run that is between turns, or over, says of its session. */
    lemma Recall(hash: string -> string, passes: seq<RunPasses.Pass>)
      requires Ready() && s.Now().Open() == Some({}) && deduper.hash == hash
      requires RunPasses.Legal(LimitsOf(cfg), passes) && RunPasses.Sum(passes) == turns
      ensures Rests(s, marks, hash) && turns == Calls(log) && Mail() && newest == NewestIn(log) && phase == PhaseIn(log)
      ensures Keeps(cfg, w, Written(passes)) && Leaves(w, v0, marks0, hash, Written(passes), s.Now())
    {
      hide Sessions.Session.Rooted, Sessions.Session.Indexed, LinksBack, CallsBelow, Sound, Recounts, Mail;
      hide OpenCalls, Sessions.Session.Trail;
      hide WithinCap, StuckRules, Chained, RunRecords.Follows, RunPasses.Legal, RunPasses.Sum, MarksGrow, Batches;
      hide Streak, Fingerprint, Backed, Calls, Grew, NewestIn, Carries, Headed;
      SoundBounds(s.Now());
      SettledAnswersAll(s.Now().trail, s.Now().foreign);
      KeysForgotten(log, v0, marks, hash, shown, s.Now());
      RecountsCarries(log, v0, marks, hash, shown, s.Now());
      RunIsHeaded(log, w, v0, s.Now());
    }

    /** The run is over: the queue closes, and what it still held was never delivered. */
    method Close() returns (left: seq<Message>)
      requires Mail() && due == []
      modifies q
      ensures q.Valid() && q.closed && q.items == [] && known <= q.accepted
      ensures Conserved(before, q.accepted, s.posts, drained, mail, left)
    {
      hide Mailed, Delivery, Bare;
      ghost var items := q.items;
      left := q.Close();
      assert q.accepted == before + (got + items);
      assert q.accepted[|before|..] == got + items;
      TakenKeeps(drained, got, items);
    }
  }

  lemma OwnWithin(v: Ledger, refs: seq<Ref>)
    requires OwnCalls(v, refs)
    ensures RefsWithin(refs, |v.nodes|)
  {
  }

  lemma BareMore(a: seq<Queued>, b: seq<Queued>)
    ensures Bare(a + b) == Bare(a) + Bare(b)
  {
  }

  lemma TakenKeeps(drained: seq<Message>, got: seq<Queued>, items: seq<Queued>)
    requires multiset(drained + []) == multiset(Bare(got))
    ensures multiset(drained + Delivery(items)) == multiset(Bare(got + items))
  {
    assert drained + [] == drained;
    DeliveryKeepsAll(items);
    BareMore(got, items);
  }

  lemma DueNext(drained: seq<Message>, due: seq<Message>)
    requires due != []
    ensures drained + [due[0]] + due[1..] == drained + due
  {
  }

  lemma AskedKeeps(v: Ledger)
    requires Sound(v)
    ensures Sound(v.Asked()) && v.Asked().Open() == v.Open() && v.start <= |v.trail|
    ensures v.Asked().Carried() == v.trail[v.start..]
  {
    hide Sound, OpenCalls;
    SoundAsked(v);
    SoundBounds(v);
    assert v.trail[v.start..|v.trail|] == v.trail[v.start..];
  }

  lemma CallJoins(log: seq<Event>, v0: Ledger, marks: map<Ref, Dedup.Key>, hash: string -> string, keys: seq<string>, v: Ledger, ns: seq<Node>, e: Event)
    requires Recounts(log, v0, marks, hash, keys, v) && Sound(v) && RefsRun(ns, |v.nodes|) && AllOfCall(ns, v.records)
    requires v.start <= |v.trail| && e.Called? && e.prompt == v.Window() && v.Open() == Some({}) && |ns| == |BodiesIn(e.pieces)|
    requires v.Asked().Streamed(ns, BodiesIn(e.pieces)).Open() == Some(Elems(LiveRefs(ns)))
    ensures Recounts(log + [e], v0, marks, hash, keys, v.Asked().Streamed(ns, BodiesIn(e.pieces)))
    ensures CallMade(v, v.Asked().Streamed(ns, BodiesIn(e.pieces)), ns, v.records)
  {
    hide Sound, Recounts, BodiesIn, RefsRun, AllOfCall, Elems, LiveRefs, OpenCalls, Flatten, TurnOpen;
    AskedKeeps(v);
    StreamedTurn(v.Asked(), ns, BodiesIn(e.pieces));
    CalledKeeps(log, v0, marks, hash, keys, v, ns, v.records, e);
    assert (v.trail + ns)[v.start..|v.trail|] == v.trail[v.start..];
  }

  /** Every call has an id, and no two the same. */
  predicate DistinctIds(batch: seq<ToolCall>) {
    && (forall i :: 0 <= i < |batch| ==> batch[i].id != "")
    && (forall i, j :: 0 <= i < j < |batch| ==> batch[i].id != batch[j].id)
  }

  lemma TurnWithin(v: Ledger, ns: seq<Node>, rec: nat)
    requires TurnOpen(v, ns, rec)
    ensures RefsWithin(NodeRefs(ns), |v.nodes|) && OwnCalls(v, NodeRefs(ns))
  {
  }

  lemma BatchOwn(v: Ledger, callNodes: seq<Ref>, calls: seq<ToolCall>, i: nat)
    requires BatchOpen(v, callNodes, calls, i)
    ensures OwnCalls(v, callNodes) && |callNodes| == |calls| && CallsMatch(v.nodes, callNodes, calls)
  {
  }

  lemma BatchAt(v: Ledger, callNodes: seq<Ref>, calls: seq<ToolCall>, i: nat)
    requires BatchOpen(v, callNodes, calls, i) && i < |callNodes|
    ensures callNodes[i] < |v.nodes| && v.nodes[callNodes[i]].body.ToolCallBody? && i < |calls| && v.nodes[callNodes[i]].body.name == calls[i].name
    ensures v.Open().Some? && callNodes[i] in v.Open().value
  {
    hide OpenCalls;
    assert callNodes[i..][0] == callNodes[i];
  }

  const StuckError := Error("the model is stuck repeating the same tool calls", false, false)

  lemma CallsCleared(m: Message, id: string)
    ensures CallFree(WithoutCalls(m, id)) && WithoutCalls(m, id).content == m.content
  {
  }

  lemma CallsClearedStill(m: Message, id: string, content: string)
    ensures CallFree(WithoutCalls(m, id).(content := content))
  {
  }

  lemma BatchDone(v: Ledger, callNodes: seq<Ref>, calls: seq<ToolCall>)
    requires BatchOpen(v, callNodes, calls, |callNodes|)
    ensures v.Open() == Some({})
  {
    hide OpenCalls;
    assert callNodes[|callNodes|..] == [] && Elems([]) == {};
  }

  lemma TextWithin(v: Ledger, rec: nat)
    requires MayText(v, rec)
    ensures rec < v.records && v.start <= |v.trail|
  {
  }

  lemma NoneOwn(v: Ledger)
    requires v.Open() == Some({})
    ensures OwnCalls(v, NodeRefs([]))
  {
  }

  /** No assistant turn is open on the window. */
  predicate WindowEnds(v: Ledger) {
    v.start <= |v.trail| && Read(v.trail[v.start..]).group == []
  }

  /** After the wrap-up notice, no assistant turn is open on the window. */
  lemma WrapUpEnds(v: Ledger, ns: seq<Node>, d: Dialect, k: nat)
    requires AllAlike(ns, NodesOf(WrapUp, d, k)) && v.start <= |v.trail|
    ensures WindowEnds(v.Told(WrapUp, ns))
  {
    assert WrapUp.role.User?;
    assert WrapUp.kind == "wrap_up" != CompactionKind;
    var of := NodesOf(WrapUp, d, k);
    assert |of| == 1 && of[0].body.SystemBody?;
    assert Alike(ns[0], of[0]);
    assert (v.trail + ns)[v.start..] == v.trail[v.start..] + [ns[0]];
    ReadEnds(v.trail[v.start..], ns[0]);
  }

  /** The wrap-up call's request ends in no assistant turn, so text may still join the turn before it. */
  lemma WrapUpMade(a: Ledger, b: Ledger, ns: seq<Node>, mine: nat, rec: nat)
    requires CallMade(a, b, ns, mine) && MayText(a, rec) && WindowEnds(a)
    ensures MayText(b, rec) && OwnCalls(b, NodeRefs(ns))
  {
    hide OwnCalls, OpenCalls, Read, OfStream;
    OfStreamStill(a.streams, b.streams, rec);
  }

  lemma TurnMayText(v: Ledger, ns: seq<Node>, rec: nat)
    requires TurnOpen(v, ns, rec)
    ensures MayText(v, rec)
  {
  }

  lemma CallOwn(v: Ledger, ns: seq<Node>, rec: nat)
    requires TurnOpen(v, ns, rec) && v.Open() == Some(Elems(LiveRefs(ns)))
    ensures OwnCalls(v, NodeRefs(ns)) && (ns == [] ==> v.Open() == Some({}))
  {
    if ns == [] {
      assert Elems([]) == {};
    }
  }

  // --- small facts the methods rest on

  /** The record has only grown since v0, by what the log accounts for, and marks were only set on what joined. */
  ghost predicate Newer(log: seq<Event>, w: World, v0: Ledger, marks0: map<Ref, Dedup.Key>, v: Ledger, marks: map<Ref, Dedup.Key>) {
    Grew(log, w, v0, v) && MarksGrow(marks0, marks, |v0.nodes|)
  }

  lemma NewerAtFirst(w: World, v: Ledger, marks: map<Ref, Dedup.Key>)
    ensures Newer([], w, v, marks, v, marks)
  {
  }

  lemma NewerNoted(log: seq<Event>, w: World, v0: Ledger, marks0: map<Ref, Dedup.Key>, v: Ledger, marks: map<Ref, Dedup.Key>, e: Event)
    requires Newer(log, w, v0, marks0, v, marks)
    ensures Newer(log + [e], w, v0, marks0, v, marks)
  {
    hide Grew;
    GrewNoted(log, w, v0, v, e);
  }

  lemma NewerStep(log: seq<Event>, w: World, v0: Ledger, marks0: map<Ref, Dedup.Key>, a: Ledger, ns: seq<Node>, marks: map<Ref, Dedup.Key>)
    requires Newer(log, w, v0, marks0, a, marks) && RefsRun(ns, |a.nodes|)
    requires forall i :: 0 <= i < |ns| ==> !ns[i].superseded && OfLoop(a, ns[i])
    ensures Newer(log, w, v0, marks0, a.Grown(ns, a.records), marks)
  {
    hide Grew;
    GrewStep(log, w, v0, a, ns);
  }

  /** A result, and where its call did not run, one that says why. */
  predicate ResultOrReason(n: Node) {
    n.LinkedResult() && !n.superseded && (n.body.omitted != "" ==> n.body.isError && n.body.content == [TextContent(n.body.omitted)])
  }

  lemma ResultsOfLoop(v: Ledger, ns: seq<Node>)
    requires forall i :: 0 <= i < |ns| ==> ResultOrReason(ns[i])
    ensures forall i :: 0 <= i < |ns| ==> !ns[i].superseded && OfLoop(v, ns[i])
  {
  }

  lemma TextOfLoop(v: Ledger, n: Node, rec: nat, text: string)
    requires MayText(v, rec) && !Blank(text) && Alike(n, Fresh("", "", Some(rec), AssistantBody(Finished(text))))
    ensures !n.superseded && OfLoop(v, n)
  {
    hide OfStream, Blank;
  }

  lemma NewerTold(log: seq<Event>, w: World, v0: Ledger, marks0: map<Ref, Dedup.Key>, a: Ledger, m: Message, ns: seq<Node>, e: Event, marks: map<Ref, Dedup.Key>)
    requires Newer(log, w, v0, marks0, a, marks) && RefsRun(ns, |a.nodes|) && Sound(a)
    ensures Newer(log + [e], w, v0, marks0, a.Told(m, ns), marks)
  {
    hide Grew, SameForeign, Sound;
    SoundBounds(a);
    ToldForeign(a, m, ns);
    GrewTold(log, w, v0, a, m, ns, e);
  }

  lemma NewerCompacted(log: seq<Event>, w: World, v0: Ledger, marks0: map<Ref, Dedup.Key>, a: Ledger, c: Node, e: Event, marks: map<Ref, Dedup.Key>)
    requires Newer(log, w, v0, marks0, a, marks) && c.ref == |a.nodes| && c.body.CompactionBody? && !c.superseded
    requires e.Compacted? && e.at == |a.trail|
    ensures Newer(log + [e], w, v0, marks0, a.Compacted(c), marks)
  {
    hide Grew;
    GrewCompacted(log, w, v0, a, c, e);
  }

  lemma NewerCalled(log: seq<Event>, w: World, v0: Ledger, marks0: map<Ref, Dedup.Key>, a: Ledger, ns: seq<Node>, rec: nat, e: Event, marks: map<Ref, Dedup.Key>)
    requires Newer(log, w, v0, marks0, a, marks) && RefsRun(ns, |a.nodes|) && AllOfCall(ns, rec) && e.Called?
    requires |BodiesIn(e.pieces)| == |ns| && |a.streams| == |v0.streams| + |Lists.FlatMap(PiecesIn, log)|
    ensures Newer(log + [e], w, v0, marks0, a.Asked().Streamed(ns, BodiesIn(e.pieces)), marks)
  {
    hide Grew, BodiesIn;
    GrewCalled(log, w, v0, a, ns, rec, e);
  }

  lemma NewerReplaced(log: seq<Event>, w: World, v0: Ledger, marks0: map<Ref, Dedup.Key>, v: Ledger, ns: seq<Node>, rec: nat, ms: seq<Node>,
                      asked: seq<ToolCall>, calls: seq<ToolCall>, marks: map<Ref, Dedup.Key>)
    requires Newer(log, w, v0, marks0, v, marks) && ReplacesNow(log, w, calls) && |v.streams| == |v0.streams| + |Lists.FlatMap(PiecesIn, log)|
    requires Sound(v) && TurnOpen(v, ns, rec) && RefsWithin(NodeRefs(ns), |v.nodes|) && RefsRun(ms, |v.nodes|) && calls != asked
    requires Trees.Placed(v.nodes)
    requires |ms| == |calls| && Makes(ms, calls, LastCall(v.nodes, LiveAmong(v.nodes, NodeRefs(ns))))
    ensures var b := v.Without(Elems(LiveAmong(v.nodes, NodeRefs(ns)))).Grown(ms, v.records);
            Newer(log, w, v0, marks0, b, marks) && Standing(b, asked, calls, NodeRefs(ms))
  {
    hide Grew, Sound, ReplacesNow, Makes, LiveAmong, LastCall, BodyOf, Instead, Standing, Trees.Placed, TurnOpen, MarksGrow, EndsPath;
    hide Mark, Elems;
    SoundBounds(v);
    MadeShape(ms, calls, LastCall(v.nodes, LiveAmong(v.nodes, NodeRefs(ns))));
    TurnLives(v, ns, rec);
    var S := Elems(LiveAmong(v.nodes, NodeRefs(ns)));
    GrewReplaced(log, w, v0, v, ns, rec, S, ms, calls);
    TurnEnds(v, ns, rec);
    ReplacedStanding(v, ns, S, ms, asked, calls);
  }

  /** What leaves the wire is the live calls of the turn. */
  lemma TurnLives(v: Ledger, ns: seq<Node>, rec: nat)
    requires TurnOpen(v, ns, rec) && RefsWithin(NodeRefs(ns), |v.nodes|)
    ensures var S := Elems(LiveAmong(v.nodes, NodeRefs(ns)));
            (forall r :: r in S ==> r in NodeRefs(ns)) && forall i :: 0 <= i < |ns| ==> (ns[i].LiveCall() <==> ns[i].ref in S)
  {
    hide OwnCalls, MayText, AllOfCall, MayMark, EndsPath, Nodes.Node.LiveCall;
    LiveAmongIs(v.nodes, ns);
    LiveRefsAre(ns);
    forall i | 0 <= i < |ns| && ns[i].ref in LiveAmong(v.nodes, NodeRefs(ns)) ensures ns[i].LiveCall() {
      assert v.nodes[ns[i].ref] == ns[i];
    }
  }

  lemma {:induction false} ReplacedStanding(v: Ledger, ns: seq<Node>, S: set<Ref>, ms: seq<Node>, asked: seq<ToolCall>, calls: seq<ToolCall>)
    requires EndsPath(v, ns) && |ms| == |calls| && calls != asked
    requires Instead(v.Without(S).Grown(ms, v.records), v.streams[|v.streams| - 1], calls)
    ensures Standing(v.Without(S).Grown(ms, v.records), asked, calls, NodeRefs(ms))
  {
    hide Instead, Mark, NodeRefs, Standing;
    StandsLast(v.Without(S).Grown(ms, v.records), v.streams[|v.streams| - 1], ms, asked, calls);
  }

  lemma {:induction false} StandsLast(b: Ledger, x: Stream, ms: seq<Node>, asked: seq<ToolCall>, calls: seq<ToolCall>)
    requires b.streams != [] && x == b.streams[|b.streams| - 1] && calls != asked && Instead(b, x, calls)
    requires |b.trail| == EndOf(x) + |calls| && b.trail[EndOf(x)..] == ms
    ensures Standing(b, asked, calls, NodeRefs(ms))
  {
    hide Instead, NodeRefs, CallRefs;
    assert b.trail[EndOf(x)..EndOf(x) + |calls|] == b.trail[EndOf(x)..];
  }

  lemma TurnEnds(v: Ledger, ns: seq<Node>, rec: nat)
    requires TurnOpen(v, ns, rec)
    ensures EndsPath(v, ns)
  {
    hide OwnCalls, MayText, AllOfCall, MayMark, Housed, EndsPath;
  }

  lemma NewerPut(log: seq<Event>, w: World, v0: Ledger, marks0: map<Ref, Dedup.Key>, a: Ledger, r: Node, was: map<Ref, Dedup.Key>, marks: map<Ref, Dedup.Key>)
    requires Newer(log, w, v0, marks0, a, was) && MarksGrow(was, marks, |a.nodes|) && r.ref == |a.nodes| && ResultOrReason(r)
    ensures Newer(log, w, v0, marks0, a.Grown([r], a.records), marks)
  {
    hide CameFrom;
    ResultsOfLoop(a, [r]);
    GrewStep(log, w, v0, a, [r]);
  }

  lemma RecountsCarries(log: seq<Event>, v0: Ledger, marks: map<Ref, Dedup.Key>, hash: string -> string, keys: seq<string>, v: Ledger)
    requires Recounts(log, v0, marks, hash, keys, v)
    ensures Carries(log, v0, v)
  {
    hide Prompted, Backed, AllShown, Genuine, Carries;
  }

  /** Each model call of the run is on the record. */
  lemma StreamsCounted(log: seq<Event>, v0: Ledger, marks: map<Ref, Dedup.Key>, hash: string -> string, keys: seq<string>, v: Ledger)
    requires Recounts(log, v0, marks, hash, keys, v)
    ensures |v.streams| == |v0.streams| + |Lists.FlatMap(PiecesIn, log)| && AreStreamed(v0.streams, v.streams, Lists.FlatMap(PiecesIn, log))
  {
    hide Prompted, Backed, AllShown, Genuine, Carries;
  }

  /** What a sub-agent's report adds to the queue: one message of the system's, unless the queue is closed. */
  function Handed(closed: bool, report: string): seq<Queued> {
    if closed then [] else [SystemMessage(Plain(User, "", "subagent_report", report))]
  }

  /** What was taken from the queue is told or due, each as often as it came, and what is told stands on the record. */
  predicate Delivered(posts: seq<Post>, mail: seq<nat>, drained: seq<Message>, due: seq<Message>, got: seq<Queued>) {
    multiset(drained + due) == multiset(Bare(got)) && Mailed(posts, mail, drained)
  }

  /** A message from the queue is the one due first. */
  predicate DueFirst(source: Source, due: seq<Message>, m: Message) {
    if source.FromQueue? then due != [] && due[0] == m else due == []
  }

  function DueAfter(source: Source, due: seq<Message>): seq<Message> {
    if source.FromQueue? && due != [] then due[1..] else due
  }

  lemma NoneDelivered(posts: seq<Post>)
    ensures Delivered(posts, [], [], [], [])
  {
  }

  lemma DeliveredTaken(posts: seq<Post>, mail: seq<nat>, drained: seq<Message>, got: seq<Queued>, items: seq<Queued>)
    requires Delivered(posts, mail, drained, [], got)
    ensures Delivered(posts, mail, drained, Delivery(items), got + items)
  {
    hide Mailed, Bare, Delivery;
    TakenKeeps(drained, got, items);
  }

  /** Nothing more is called for by what was taken. */
  lemma TakenFree(log: seq<Event>, maxTurns: int, msgs: seq<Message>)
    requires log != [] && log[|log| - 1] == Taken(msgs)
    ensures Free(log, maxTurns)
  {
  }

  lemma DeliveredTold(posts: seq<Post>, mail: seq<nat>, drained: seq<Message>, due: seq<Message>, got: seq<Queued>, p: Post, source: Source)
    requires Delivered(posts, mail, drained, due, got) && (source.FromQueue? ==> due != [] && due[0] == p.m)
    ensures if source.FromQueue? then Delivered(posts + [p], mail + [|posts|], drained + QueuedIn(Told(p.m, source)), due[1..], got)
            else Delivered(posts + [p], mail, drained + QueuedIn(Told(p.m, source)), due, got)
  {
    hide Mailed, Bare;
    MailedTold(posts, mail, drained, p);
    if source.FromQueue? {
      DueNext(drained, due);
    } else {
      assert drained + [] == drained;
    }
  }

  lemma OmitsNoResults(ns: seq<Node>, todo: seq<Ref>, nodes: seq<Node>, reason: string)
    requires |ns| == |todo| && OmitsAll(ns, todo, nodes, reason) && reason != ""
    ensures NoResults(ns) && forall i :: 0 <= i < |ns| ==> ResultOrReason(ns[i])
  {
    forall i | 0 <= i < |ns| ensures !RealResult(ns[i]) && ResultOrReason(ns[i]) {
      assert Records(ns[i], todo[i], nodes[todo[i]].body.callId, reason, true, reason);
    }
  }

  lemma TextNoResult(n: Node, rec: nat, text: string)
    requires Alike(n, Fresh("", "", Some(rec), AssistantBody(Finished(text))))
    ensures NoResults([n])
  {
  }

  lemma ToldQuiet(log: seq<Event>, maxTurns: int, repeats: nat, m: Message, source: Source)
    ensures !NudgeDue(log + [Told(m, source)], repeats)
    ensures !source.FromInbox? ==> Free(log + [Told(m, source)], maxTurns)
  {
  }

  lemma TookQueue(p: Phase, msgs: seq<Message>)
    requires p.owed == []
    ensures Moves(p, Taken(msgs)) == Phase(true, false, false, msgs)
  {
    assert [] + msgs == msgs;
  }

  lemma NoteQuiet(log: seq<Event>, repeats: nat)
    requires log != [] && !log[|log| - 1].Recorded?
    ensures !NudgeDue(log, repeats)
  {
  }

  /** The inbox held these, and the first i of them are told. */
  predicate InboxLast(log: seq<Event>, msgs: seq<Message>, i: nat) {
    log != [] && i <= |msgs| && log[|log| - 1] == if i == 0 then Polled(msgs) else Told(msgs[i - 1], FromInbox(msgs[i..]))
  }

  lemma InboxDone(log: seq<Event>, maxTurns: int, msgs: seq<Message>)
    requires InboxLast(log, msgs, |msgs|)
    ensures Free(log, maxTurns)
  {
  }

  lemma RanIsLast(was: seq<Event>, log: seq<Event>, model: seq<ToolCall>, refused: map<string, ToolOutput>, calls: seq<ToolCall>, asked: seq<ToolCall>, outputs: seq<ToolOutput>)
    requires log == was + [Ran(calls, asked, outputs)] && was != [] && was[|was| - 1] == Batch(model, refused)
    ensures RanLast(log, calls, outputs) && BatchBefore(log, model)
  {
  }

  lemma AllResolved(w: World, i: nat, refused: map<string, ToolOutput>, calls: seq<ToolCall>, asked: seq<ToolCall>, outputs: seq<ToolOutput>)
    requires Resolves(w, i, refused, calls, asked, outputs)
    ensures |outputs| == |calls|
  {
  }

  lemma IsResultBody(r: Node, c: Ref, callId: string, content: string, isError: bool)
    requires Records(r, c, callId, content, isError, "")
    ensures ResultOrReason(r) && r.body.ToolResultBody?
  {
  }

  /** The call is in the log, with what it was sent and what it left. */
  ghost predicate LogsCall(was: seq<Event>, log: seq<Event>, number: nat, prompt: seq<Message>, tools: seq<Tool>, wrapUp: bool, mc: ModelCall, failed: bool) {
    exists row, pieces :: log == was + [Called(number, prompt, tools, wrapUp, row, pieces, mc.refused, failed)] && CallsIn(BodiesIn(pieces)) == CallsOf(mc.nodes)
  }

  lemma CalledIs(was: seq<Event>, log: seq<Event>, number: nat, prompt: seq<Message>, tools: seq<Tool>, mc: ModelCall)
    requires LogsCall(was, log, number, prompt, tools, false, mc, false)
    ensures CalledLast(log, number, CallsOf(mc.nodes), mc.refused)
  {
    hide CallsOf, BodiesIn, CallsIn;
  }

  lemma WrapUpFree(was: seq<Event>, log: seq<Event>, number: nat, prompt: seq<Message>, tools: seq<Tool>, mc: ModelCall, failed: bool, maxTurns: int)
    requires LogsCall(was, log, number, prompt, tools, true, mc, failed)
    ensures Free(log, maxTurns)
  {
    hide CallsOf, BodiesIn, CallsIn;
  }

  lemma FailedFree(was: seq<Event>, log: seq<Event>, number: nat, prompt: seq<Message>, tools: seq<Tool>, mc: ModelCall, maxTurns: int)
    requires LogsCall(was, log, number, prompt, tools, false, mc, true)
    ensures Free(log, maxTurns)
  {
    hide CallsOf, BodiesIn, CallsIn;
  }

  // --- the run as a whole

  function LimitsOf(cfg: Config): RunPasses.Limits {
    RunPasses.Limits(cfg.maxTurns, cfg.tools != [], cfg.autoCompact > 0.0)
  }

  function PassOf(n: Next, calls: nat): RunPasses.Pass {
    match n
    case Again => RunPasses.Pass(RunPasses.Overflowed, calls)
    case Further => RunPasses.Pass(RunPasses.Turned, calls)
    case Over(_) => RunPasses.Pass(RunPasses.Ended, calls)
  }

  /** What a caller gets: an error before the run begins, a run that goes on past the passes allowed it, or its result. */
  datatype Report = Refused(err: Error) | StillRunning | Reported(ending: Ending, turns: nat, undelivered: seq<Message>)

  /** What a run writes down: the events, the results a marker stands for, the queued messages it told, with the place
      of each on the record, and its passes. */
  datatype Diary = Diary(
    log: seq<Event>, marks: map<Ref, Dedup.Key>, drained: seq<Message>, mail: seq<nat>, passes: seq<RunPasses.Pass>)

  /** A session between runs. */
  ghost predicate Rests(s: Session, marks: map<Ref, Dedup.Key>, hash: string -> string)
    reads s, s.tree
  {
    && s.Valid() && Sound(s.Now()) && s.Now().Open() == Some({})
    && Backed(s.Now(), marks, hash, [])
  }

  /** What holds of the events of every run: calls are counted and capped, the repeat rules are kept, nothing that was
      called for is left out, every answer is the world's, and the messages told from the queue are those drained. */
  predicate Keeps(cfg: Config, w: World, d: Diary) {
    && Counted(d.log, cfg.maxTurns, RunPasses.Sum(d.passes)) && StuckRules(d.log) && Chained(d.log, cfg.maxTurns)
    && RunRecords.Follows(d.log, w) && d.drained == Lists.FlatMap(QueuedIn, d.log) && Attentive(d.log, cfg.watcher)
    && RunPasses.Legal(LimitsOf(cfg), d.passes)
  }

  /** What a run leaves on the session that was v0, and is v now: the record grew by what the log says, each call was
      sent its window, each result shows its output, each marker is backed, and every call of the loop is answered. */
  ghost predicate Leaves(w: World, v0: Ledger, marks0: map<Ref, Dedup.Key>, hash: string -> string, d: Diary, v: Ledger) {
    && Recounts(d.log, v0, d.marks, hash, [], v) && MarksGrow(marks0, d.marks, |v0.nodes|)
    && AllAnswered(v.trail, v.foreign) && Grew(d.log, w, v0, v) && Headed(d.log)
  }

  /** Each message the queue took, and took since, is told once or handed back, and what is told stands on the record. */
  predicate Conserved(taken: seq<Queued>, accepted: seq<Queued>, posts: seq<Post>, drained: seq<Message>, mail: seq<nat>, undelivered: seq<Message>) {
    && taken <= accepted
    && multiset(drained + undelivered) == multiset(Bare(accepted[|taken|..]))
    && Mailed(posts, mail, drained)
  }

  /** Under a cap of N a run makes at most 3N - 1 calls, and at most N when auto-compaction is off and there are no tools,
      or only one turn. */
  lemma CallsBounded(cfg: Config, w: World, d: Diary)
    requires Keeps(cfg, w, d) && cfg.maxTurns > 0
    ensures Calls(d.log) <= 3 * cfg.maxTurns - 1
    ensures cfg.autoCompact <= 0.0 && (cfg.maxTurns == 1 || cfg.tools == []) ==> Calls(d.log) <= cfg.maxTurns
  {
    hide StuckRules, Chained, RunRecords.Follows, RunPasses.Legal, RunPasses.Sum, WithinCap, QueuedIn, Calls;
    RunPasses.PassBounds(LimitsOf(cfg), d.passes);
  }

  /** A session's turn. A run refused before it registers the close leaves its queue open, with what is in it. */
  method RunOn(cfg: Config, w: World, s: Session, q: MessageQueue, hash: string -> string, fuel: nat, ghost marks: map<Ref, Dedup.Key>)
    returns (o: Outcome<Report>, ghost d: Diary)
    requires Rests(s, marks, hash) && Dedup.Digest(hash) && q.Valid()
    modifies s, s.tree, q
    ensures o.Returned? && o.value.Refused? ==> Rests(s, marks, hash) && s.Now() == old(s.Now()) && unchanged(q)
    ensures o.Returned? && !o.value.Refused? ==> Rests(s, d.marks, hash)
    ensures o.Returned? && !o.value.Refused? ==> Keeps(cfg, w, d) && Leaves(w, old(s.Now()), marks, hash, d, s.Now())
    ensures o.Returned? && o.value.Reported? ==> Fair(o.value.ending, s.Now().Window())
    ensures o.Returned? && o.value.Reported? ==> Concludes(NewestIn(d.log), PhaseIn(d.log).polled, o.value.ending.final, o.value.ending.err.Some?)
    ensures o.Returned? && o.value.Reported? ==> o.value.turns == Calls(d.log) && RunPasses.LastIs(d.passes, RunPasses.Ended)
    ensures o.Returned? && o.value.Reported? ==> q.Valid() && q.closed && q.items == [] && old(q.accepted) <= q.accepted
    ensures o.Returned? && o.value.Reported? ==> Conserved(old(q.taken), q.accepted, s.posts, d.drained, d.mail, o.value.undelivered)
    ensures o.Returned? && cfg.maxTurns > 0 && fuel >= 2 * cfg.maxTurns ==> !o.value.StillRunning?
  {
    hide Sessions.Session.Rooted, Sessions.Session.Indexed, LinksBack, CallsBelow, Sessions.Session.Trail, Start;
    hide Sound, Backed;
    hide OpenCalls, Flatten, Dedup.OutputDeduper.Valid, Dedup.Digest, Keeps, Leaves, Conserved, NudgeDue;
    hide Run.Ready, Run.Kept, Run.Mail, Fair, Replies, Remains, NewestIn, Free, RunPasses.Legal, RunPasses.Sum, RunPasses.LastIs;
    d := Diary([], marks, [], [], []);
    var refusal: Option<Error> := Any();
    if refusal.Some? {
      return Returned(Refused(refusal.value)), d;
    }
    var deduper := new Dedup.OutputDeduper(hash);
    var lost := s.CheckMonotonic();
    var window: int := Any();
    var run := new Run(cfg, w, s, q, deduper, window, marks);
    var ended, passes := run.Turns(fuel);
    if ended.Panicked? {
      return Panicked, d;
    }
    run.Recall(hash, passes);
    d := run.Written(passes);
    if ended.value.None? {
      return Returned(StillRunning), d;
    }
    run.Arrive();
    run.Recall(hash, passes);
    var left := run.Close();
    d := run.Written(passes);
    return Returned(Reported(ended.value.value, run.turns, left)), d;
  }

  /** A new conversation rests. */
  method NewConversation(d: Dialect, digest: string -> string, hash: string -> string) returns (s: Session)
    ensures fresh(s) && fresh(s.tree) && Rests(s, map[], hash) && s.Now().trail == []
  {
    hide Sessions.Session.Rooted, Sessions.Session.Indexed, LinksBack, CallsBelow, Sound;
    s := new Session(d, digest);
    NothingOpen(d, hash);
  }

  lemma NothingOpen(d: Dialect, hash: string -> string)
    ensures Ledger([], [], 0, 0, 0, 0, {}, [], [], d).Open() == Some({})
    ensures Backed(Ledger([], [], 0, 0, 0, 0, {}, [], [], d), map[], hash, [])
  {
  }

  /** The messages of a Send join the conversation, which then still rests, as a turn needs. */
  method AppendAll(s: Session, msgs: seq<Message>, hash: string -> string, ghost marks: map<Ref, Dedup.Key>) returns (o: Outcome<nat>)
    requires Rests(s, marks, hash)
    modifies s, s.tree
    ensures o.Returned? ==> Rests(s, marks, hash) && |s.posts| == |old(s.posts)| + |msgs|
    ensures o.Returned? ==> forall i :: 0 <= i < |msgs| ==> s.posts[|old(s.posts)| + i].m == msgs[i]
  {
    hide Sessions.Session.Rooted, Sessions.Session.Indexed, LinksBack, CallsBelow, Sessions.Session.Trail, Start;
    hide Sound, Backed, OpenCalls;
    hide AllAlike, NodesOf, RefsRun, Elems, NodeRefs;
    for i := 0 to |msgs|
      invariant Rests(s, marks, hash) && |s.posts| == |old(s.posts)| + i
      invariant forall k :: 0 <= k < i ==> s.posts[|old(s.posts)| + k].m == msgs[k]
    {
      ghost var v := s.Now();
      var ns :- s.AppendFlat(msgs[i]);
      assert s.posts == v.posts + [Post(msgs[i], v.records, |v.trail|)];
      BackedOnly(v, s.Now(), ns, marks, hash);
    }
    return Returned(|msgs|);
  }

  lemma BackedOnly(a: Ledger, b: Ledger, ns: seq<Node>, marks: map<Ref, Dedup.Key>, hash: string -> string)
    requires Sound(a) && Backed(a, marks, hash, []) && RefsRun(ns, |a.nodes|)
    requires b.nodes == a.nodes + ns && b.trail == a.trail + ns && b.start == a.start
    ensures Backed(b, marks, hash, [])
  {
    hide Backed;
    BackedStill(a, b, marks, hash, []);
  }

  /** The turn's own text is its answer; a turn that wrote none gets the fallback, and it is on the record too. */
  ghost predicate Surfaced(a: Ledger, b: Ledger, rec: nat, assistant: Message, final: Message) {
    if !Blank(assistant.content) then b == a && final.content == assistant.content
    else
      && final.content == FallbackOutput(assistant)
      && exists n :: b == a.Grown([n], a.records) && n.body == AssistantBody(Finished(final.content)) && n.call == Some(rec) && !n.superseded
  }

  /** From a to b one result was recorded, and it shows its output. */
  ghost predicate ShowsMore(a: Ledger, b: Ledger, call: Ref, tool: string, output: ToolOutput, was: map<Ref, Dedup.Key>, marks: map<Ref, Dedup.Key>, hash: string -> string) {
    exists r :: b == a.Grown([r], a.records) && r.ref == |a.nodes| && MarksGrow(was, marks, |a.nodes|) && ShowsOutput(r, call, tool, output, marks, hash)
  }

  lemma ShowsNone(v: Ledger, callNodes: seq<Ref>, calls: seq<ToolCall>, marks: map<Ref, Dedup.Key>, hash: string -> string)
    ensures ShowsAll(v, v, callNodes, calls, [], marks, hash)
  {
  }

  lemma ShowsThen(a: Ledger, b: Ledger, c: Ledger, callNodes: seq<Ref>, calls: seq<ToolCall>, results: seq<ToolOutput>, i: nat,
                  was: map<Ref, Dedup.Key>, marks: map<Ref, Dedup.Key>, hash: string -> string)
    requires i < |results| == |callNodes| == |calls|
    requires ShowsAll(a, b, callNodes, calls, results[..i], was, hash)
    requires ShowsMore(b, c, callNodes[i], calls[i].name, results[i], was, marks, hash)
    ensures ShowsAll(a, c, callNodes, calls, results[..i + 1], marks, hash)
  {
    hide ShowsAll, ShowsOutput, MarksGrow;
    var r :| c == b.Grown([r], b.records) && r.ref == |b.nodes| && MarksGrow(was, marks, |b.nodes|) && ShowsOutput(r, callNodes[i], calls[i].name, results[i], marks, hash);
    ShowsNext(a, b, r, callNodes, calls, results[..i], results[i], was, marks, hash);
    assert results[..i + 1] == results[..i] + [results[i]];
  }

  lemma OneTold(posts: seq<Post>, p: Post)
    ensures AreTold(posts, posts + [p], [p.m])
  {
  }

  lemma NoneTold(posts: seq<Post>)
    ensures AreTold(posts, posts, [])
  {
  }

  lemma MoreTold(was: seq<Post>, posts: seq<Post>, more: seq<Post>, msgs: seq<Message>, i: nat)
    requires i < |msgs| && AreTold(was, posts, msgs[..i]) && AreTold(posts, more, [msgs[i]])
    ensures AreTold(was, more, msgs[..i + 1])
  {
  }
}
