/** A session as its callers see it: turns that run one at a time, and messages queued at any time
    (internal/loop/session_api.go). Each locked section is one step, so a list of steps is any interleaving. */
module SessionApi {
  import opened Wrappers
  import opened Messages
  import opened Queues
  import Dedup
  import Ledgers
  import Nodes
  import RunLoop
  import RunRecords
  import RunTurns
  import Sessions

  /** A queue as a value. */
  datatype Box = Box(items: seq<Queued>, closed: bool) {
    function With(more: seq<Queued>): Box {
      if closed then this else Box(items + more, closed)
    }
  }

  /** A turn runs, or has returned with what it could not deliver and is about to be finished. */
  datatype Phase = Idle | Running | Ended(left: seq<Message>)

  /** `host` is the queue the host supplied, `own` the one a turn makes for itself. `accepted` is every message that was
      taken in, `told` what turns put in the transcript, `lost` what no one holds any more. */
  datatype State = State(
    host: Option<Box>, own: Option<Box>, phase: Phase, pending: seq<Queued>, closed: bool,
    undelivered: seq<Message>, told: seq<Message>, accepted: seq<Queued>, lost: seq<Queued>)
  {
    /** The queue a turn drains. */
    function Live(): Option<Box> {
      if host.Some? then host else own
    }

    function WithLive(q: Box): State {
      if host.Some? then this.(host := Some(q)) else this.(own := Some(q))
    }
  }

  /** Send a turn; queue a message through the session; queue one with the host's own queue; the running turn drains;
      it returns, perhaps before it registered the close of its queue; it is finished; the session closes. */
  datatype Step =
    | Send
    | Queue(msg: Queued)
    | HostQueue(note: Queued)
    | Drain
    | Return(early: bool)
    | Finish
    | Close

  function Begin(s: State): State {
    var t := if s.host.Some? then s else s.(own := Some(Box([], false)));
    var q := t.Live().value;
    t.WithLive(q.With(s.pending)).(phase := Running, pending := [], lost := s.lost + if q.closed then s.pending else [])
  }

  function Next(s: State, step: Step): State {
    match step
    case Send =>
      if s.closed || !s.phase.Idle? then s else Begin(s)
    case Queue(m) =>
      if s.closed then s
      else if !s.phase.Idle? && s.Live().Some? && !s.Live().value.closed then
        s.WithLive(s.Live().value.With([m])).(accepted := s.accepted + [m])
      else s.(pending := s.pending + [m], accepted := s.accepted + [m])
    case HostQueue(m) =>
      if s.host.Some? && !s.host.value.closed then s.(host := Some(s.host.value.With([m])), accepted := s.accepted + [m]) else s
    case Drain =>
      if s.phase.Running? && s.Live().Some? then
        s.WithLive(Box([], s.Live().value.closed)).(told := s.told + Delivery(s.Live().value.items))
      else s
    case Return(early) =>
      if s.phase.Running? && s.Live().Some? then
        if early then s.(phase := Ended([]))
        else s.WithLive(Box([], true)).(phase := Ended(Delivery(s.Live().value.items)))
      else s
    case Finish =>
      if s.phase.Ended? then
        s.(phase := Idle, own := None, undelivered := s.undelivered + s.phase.left,
           lost := s.lost + if s.own.Some? then s.own.value.items else [])
      else s
    case Close => s.(closed := true)
  }

  function Play(s: State, steps: seq<Step>): State {
    if steps == [] then s else Next(Play(s, steps[..|steps| - 1]), steps[|steps| - 1])
  }

  function First(host: Option<Box>): State {
    State(host, None, Idle, [], false, [], [], if host.Some? then host.value.items else [], [])
  }

  // --- conservation

  function ItemsOf(q: Option<Box>): seq<Queued> {
    if q.Some? then q.value.items else []
  }

  function LeftOf(p: Phase): seq<Message> {
    if p.Ended? then p.left else []
  }

  /** How often x is among queued messages, and among bare ones. */
  function Queueds(items: seq<Queued>, x: Message): nat {
    multiset(Bare(items))[x]
  }

  function Bares(ms: seq<Message>, x: Message): nat {
    multiset(ms)[x]
  }

  /** How often x is held anywhere. */
  function Held(s: State, x: Message): nat {
    Queueds(ItemsOf(s.host), x) + Queueds(ItemsOf(s.own), x) + Queueds(s.pending, x)
    + Bares(LeftOf(s.phase), x) + Bares(s.undelivered, x) + Bares(s.told, x) + Queueds(s.lost, x)
  }

  /** Every message taken in is held as often as it was taken in: in a queue, pending, handed back, told, or lost. */
  ghost predicate Conserved(s: State) {
    forall x :: Queueds(s.accepted, x) == Held(s, x)
  }

  /** A turn's own queue is there while the turn is; nothing is left outside one. */
  predicate Sane(s: State) {
    && (s.host.Some? ==> s.own.None?)
    && (s.phase.Idle? ==> s.own.None?)
    && (!s.phase.Idle? ==> s.Live().Some?)
  }

  lemma QueuedsMore(a: seq<Queued>, b: seq<Queued>, x: Message)
    ensures Queueds(a + b, x) == Queueds(a, x) + Queueds(b, x)
    ensures Queueds([], x) == 0
    ensures Bares(Delivery(b), x) == Queueds(b, x)
  {
    hide Bare, Delivery;
    BareMore(a, b);
    BareNone();
    DeliveryKeepsAll(b);
  }

  lemma BaresMore(a: seq<Message>, b: seq<Message>, x: Message)
    ensures Bares(a + b, x) == Bares(a, x) + Bares(b, x)
    ensures Bares([], x) == 0
  {
  }

  lemma BareMore(a: seq<Queued>, b: seq<Queued>)
    ensures Bare(a + b) == Bare(a) + Bare(b)
  {
  }

  lemma BareNone()
    ensures Bare([]) == []
  {
  }

  lemma HeldSend(s: State, x: Message)
    requires Sane(s) && s.phase.Idle?
    ensures Held(Begin(s), x) == Held(s, x) && Sane(Begin(s))
  {
    hide Queueds, Bares;
    var q := if s.host.Some? then s.host.value else Box([], false);
    QueuedsMore(q.items, s.pending, x);
    QueuedsMore(s.lost, s.pending, x);
    QueuedsMore([], [], x);
    assert s.lost + [] == s.lost;
  }

  lemma HeldQueue(s: State, m: Queued, x: Message)
    requires Sane(s)
    ensures Queueds(Next(s, Queue(m)).accepted, x) - Held(Next(s, Queue(m)), x) == Queueds(s.accepted, x) - Held(s, x)
    ensures Queueds(Next(s, HostQueue(m)).accepted, x) - Held(Next(s, HostQueue(m)), x) == Queueds(s.accepted, x) - Held(s, x)
    ensures Sane(Next(s, Queue(m))) && Sane(Next(s, HostQueue(m)))
  {
    hide Queueds, Bares;
    QueuedsMore(s.accepted, [m], x);
    QueuedsMore(s.pending, [m], x);
    QueuedsMore(ItemsOf(s.host), [m], x);
    QueuedsMore(ItemsOf(s.own), [m], x);
  }

  lemma HeldTurn(s: State, step: Step, x: Message)
    requires Sane(s) && (step.Drain? || step.Return? || step.Finish?)
    ensures Held(Next(s, step), x) == Held(s, x) && Sane(Next(s, step)) && Next(s, step).accepted == s.accepted
  {
    hide Queueds, Bares, Delivery;
    var items := ItemsOf(s.Live());
    QueuedsMore([], items, x);
    BaresMore(s.told, Delivery(items), x);
    BaresMore(s.undelivered, LeftOf(s.phase), x);
    QueuedsMore(s.lost, ItemsOf(s.own), x);
    assert s.lost + [] == s.lost;
  }

  lemma HeldStep(s: State, step: Step, x: Message)
    requires Sane(s)
    ensures Queueds(Next(s, step).accepted, x) - Held(Next(s, step), x) == Queueds(s.accepted, x) - Held(s, x)
    ensures Sane(Next(s, step))
  {
    hide Queueds, Held;
    match step
    case Send =>
      if !s.closed && s.phase.Idle? {
        HeldSend(s, x);
      }
    case Queue(m) => HeldQueue(s, m, x);
    case HostQueue(m) => HeldQueue(s, m, x);
    case Close => HeldClose(s, x);
    case _ => HeldTurn(s, step, x);
  }

  lemma HeldClose(s: State, x: Message)
    ensures Held(s.(closed := true), x) == Held(s, x)
  {
  }

  lemma HeldFirst(host: Option<Box>, x: Message)
    ensures Queueds(First(host).accepted, x) == Held(First(host), x)
  {
    QueuedsMore([], [], x);
    BaresMore([], [], x);
  }

  /** Over any interleaving, every message that was taken in is in exactly one place. */
  lemma {:induction false} NothingVanishes(host: Option<Box>, steps: seq<Step>)
    ensures Conserved(Play(First(host), steps)) && Sane(Play(First(host), steps))
  {
    hide Queueds, Held, Next, First;
    if steps == [] {
      forall x ensures Queueds(First(host).accepted, x) == Held(First(host), x) {
        HeldFirst(host, x);
      }
      SaneFirst(host);
    } else {
      var before := Play(First(host), steps[..|steps| - 1]);
      NothingVanishes(host, steps[..|steps| - 1]);
      forall x ensures Queueds(Play(First(host), steps).accepted, x) == Held(Play(First(host), steps), x) {
        HeldStep(before, steps[|steps| - 1], x);
      }
      HeldStep(before, steps[|steps| - 1], Plain(User, "", "", ""));
    }
  }

  lemma SaneFirst(host: Option<Box>)
    ensures Sane(First(host))
  {
  }

  // --- what is lost

  /** The steps that lose something: a turn begins on a host queue that an earlier turn closed while messages wait, or
      ends while the queue it made for itself, and never closed, holds some. */
  predicate Loses(s: State, step: Step) {
    || (step.Send? && !s.closed && s.phase.Idle? && s.host.Some? && s.host.value.closed && s.pending != [])
    || (step.Finish? && s.phase.Ended? && s.own.Some? && s.own.value.items != [])
  }

  /** A step loses messages exactly when it is one of those. */
  lemma LosesExactly(s: State, step: Step)
    ensures Next(s, step).lost != s.lost <==> Loses(s, step)
    ensures s.lost <= Next(s, step).lost
  {
  }

  predicate NoEarly(steps: seq<Step>) {
    forall i :: 0 <= i < |steps| ==> steps[i] != Return(true)
  }

  /** A turn's own queue is empty and closed once the turn has returned past the point where it registers the close. */
  predicate Tidy(s: State) {
    s.phase.Ended? && s.own.Some? ==> s.own.value == Box([], true)
  }

  lemma TidyStep(s: State, step: Step)
    requires Sane(s) && Tidy(s) && s.host.None? && s.lost == [] && step != Return(true)
    ensures Tidy(Next(s, step)) && Next(s, step).host.None? && Next(s, step).lost == []
  {
    hide Delivery;
  }

  /** Without a host queue, and with turns that reach the loop, nothing is ever lost. */
  lemma {:induction false} NothingLost(steps: seq<Step>)
    requires NoEarly(steps)
    ensures Play(First(None), steps).lost == [] && Play(First(None), steps).host.None? && Tidy(Play(First(None), steps))
  {
    if steps != [] {
      hide Next, First;
      var init := steps[..|steps| - 1];
      NothingLost(init);
      NothingVanishes(None, init);
      assert steps[|steps| - 1] != Return(true);
      TidyStep(Play(First(None), init), steps[|steps| - 1]);
    }
  }

  lemma PlayMore(s: State, steps: seq<Step>, step: Step)
    ensures Play(s, steps + [step]) == Next(Play(s, steps), step)
    ensures Play(s, []) == s
  {
    assert (steps + [step])[..|steps|] == steps;
  }

  lemma HostChain(m: Queued)
    ensures Next(Next(Next(Next(Next(First(Some(Box([], false))), Send), Return(false)), Finish), Queue(m)), Send).lost == [m]
  {
    hide Delivery;
    var s := First(Some(Box([], false)));
    var a := Next(Next(s, Send), Return(false));
    assert a.host == Some(Box([], true)) && a.phase.Ended? && a.lost == [] && a.pending == [] && !a.closed;
    var b := Next(a, Finish);
    assert b.host == Some(Box([], true)) && b.phase.Idle? && b.lost == [] && b.pending == [] && !b.closed;
  }

  /** With one, the second turn refuses what came in between. */
  lemma HostQueueLoses(m: Queued)
    ensures Play(First(Some(Box([], false))), [Send, Return(false), Finish, Queue(m), Send]).lost == [m]
  {
    hide Play, Next, Delivery;
    HostChain(m);
    var s := First(Some(Box([], false)));
    assert [] + [Send] == [Send] && [Send] + [Return(false)] == [Send, Return(false)];
    assert [Send, Return(false)] + [Finish] == [Send, Return(false), Finish];
    assert [Send, Return(false), Finish] + [Queue(m)] == [Send, Return(false), Finish, Queue(m)];
    assert [Send, Return(false), Finish, Queue(m)] + [Send] == [Send, Return(false), Finish, Queue(m), Send];
    PlayMore(s, [], Send);
    PlayMore(s, [Send], Return(false));
    PlayMore(s, [Send, Return(false)], Finish);
    PlayMore(s, [Send, Return(false), Finish], Queue(m));
    PlayMore(s, [Send, Return(false), Finish, Queue(m)], Send);
  }

  lemma EarlyChain(m: Queued)
    ensures Next(Next(Next(Next(First(None), Queue(m)), Send), Return(true)), Finish).lost == [m]
  {
    hide Delivery;
    var a := Next(First(None), Queue(m));
    assert a.pending == [m] && a.phase.Idle? && !a.closed && a.lost == [] && a.host.None?;
    var b := Next(a, Send);
    assert b.own == Some(Box([m], false)) && b.phase.Running? && b.lost == [] && b.host.None?;
  }

  /** So does a turn that is refused before the loop, without any host queue. */
  lemma EarlyReturnLoses(m: Queued)
    ensures Play(First(None), [Queue(m), Send, Return(true), Finish]).lost == [m]
  {
    hide Play, Next, Delivery;
    var s := First(None);
    EarlyChain(m);
    assert [] + [Queue(m)] == [Queue(m)] && [Queue(m)] + [Send] == [Queue(m), Send];
    assert [Queue(m), Send] + [Return(true)] == [Queue(m), Send, Return(true)];
    assert [Queue(m), Send, Return(true)] + [Finish] == [Queue(m), Send, Return(true), Finish];
    PlayMore(s, [], Queue(m));
    PlayMore(s, [Queue(m)], Send);
    PlayMore(s, [Queue(m), Send], Return(true));
    PlayMore(s, [Queue(m), Send, Return(true)], Finish);
  }

  // --- the session itself

  datatype Sent = Started | Busy | Refused

  ghost function BoxOf(q: MessageQueue): Box
    reads q
  {
    Box(q.items, q.closed)
  }

  class PublicSession {
    const host: MessageQueue?
    var running: bool
    var queue: MessageQueue?
    var pending: seq<Queued>
    var closed: bool
    var undelivered: seq<Message>
    ghost var phase: Phase
    ghost var told: seq<Message>
    ghost var accepted: seq<Queued>
    ghost var lost: seq<Queued>

    /** A turn runs exactly while there is a queue to it, which is the host's when there is one. */
    ghost predicate Valid()
      reads this, host, queue
    {
      && (running <==> queue != null) && (running <==> !phase.Idle?)
      && (host != null ==> host.Valid() && (queue != null ==> queue == host))
      && (queue != null ==> queue.Valid())
    }

    ghost function Now(): State
      reads this, host, queue
    {
      State(if host != null then Some(BoxOf(host)) else None,
            if host == null && queue != null then Some(BoxOf(queue)) else None,
            phase, pending, closed, undelivered, told, accepted, lost)
    }

    constructor (host: MessageQueue?)
      requires host != null ==> host.Valid()
      ensures Valid() && Now() == First(if host != null then Some(BoxOf(host)) else None)
    {
      this.host, running, queue, pending, closed, undelivered := host, false, null, [], false, [];
      phase, told, accepted, lost := Idle, [], if host != null then host.items else [], [];
    }

    /** Starts a turn, unless one runs or the session is closed. What waited goes into the turn's queue. */
    method Send() returns (r: Sent)
      requires Valid()
      modifies this, host
      ensures Valid() && Now() == Next(old(Now()), Step.Send)
      ensures r == if old(closed) then Refused else if old(running) then Busy else Started
    {
      if closed {
        return Refused;
      }
      if running {
        return Busy;
      }
      var q := host;
      if q == null {
        q := new MessageQueue();
      }
      ghost var was := BoxOf(q);
      for i := 0 to |pending|
        invariant unchanged(this)
        invariant q.Valid() && BoxOf(q) == was.With(pending[..i])
      {
        var _ := q.Queue(pending[i]);
        assert pending[..i + 1] == pending[..i] + [pending[i]];
      }
      assert pending[..|pending|] == pending;
      lost := lost + if was.closed then pending else [];
      pending := [];
      running, queue, phase := true, q, Running;
      return Started;
    }

    /** Takes a message for the running turn, or for the next one. */
    method Queue(msg: Queued) returns (ok: bool)
      requires Valid()
      modifies this, queue
      ensures Valid() && Now() == Next(old(Now()), Step.Queue(msg)) && ok == !old(closed)
    {
      if closed {
        return false;
      }
      if queue != null {
        var took := queue.Queue(msg);
        if took {
          accepted := accepted + [msg];
          return true;
        }
        assert BoxOf(queue) == old(BoxOf(queue));
      }
      pending := pending + [msg];
      accepted := accepted + [msg];
      return true;
    }

    /** The turn has returned with what it could not deliver: the session is free for the next. */
    method Finish(left: seq<Message>)
      requires Valid() && phase == Ended(left)
      modifies this
      ensures Valid() && Now() == Next(old(Now()), Step.Finish)
    {
      lost := lost + if host == null then queue.items else [];
      undelivered := undelivered + left;
      running, queue, phase := false, null, Idle;
    }

    method Close()
      requires Valid()
      modifies this`closed
      ensures Valid() && Now() == Next(old(Now()), Step.Close)
    {
      closed := true;
    }

    /** The running turn takes what is queued into the transcript. */
    method Drain()
      requires Valid() && phase.Running?
      modifies this`told, queue
      ensures Valid() && Now() == Next(old(Now()), Step.Drain)
    {
      var msgs := queue.Drain();
      told := told + msgs;
    }

    /** The running turn as RunLoop runs it, from its first step to the session being free again: what it told, what it
        hands back and what came in meanwhile keep every message accounted for. */
    method RunTurn(cfg: RunTurns.Config, w: RunRecords.World, s: Sessions.Session, hash: string -> string, fuel: nat,
                   ghost marks: map<Nodes.Ref, Dedup.Key>)
      returns (o: Outcome<RunLoop.Report>, ghost d: RunLoop.Diary)
      requires Valid() && phase.Running? && RunLoop.Rests(s, marks, hash) && Dedup.Digest(hash)
      modifies this, queue, s, s.tree
      ensures o.Returned? && o.value.Reported? ==> Valid() && phase.Idle? && RunLoop.Rests(s, d.marks, hash)
      ensures o.Returned? && o.value.Reported? ==> TurnEnds(old(Now()), Now(), d.drained, o.value.undelivered)
      ensures o.Returned? && o.value.Reported? && Conserved(old(Now())) ==> Conserved(Now())
      ensures o.Returned? && o.value.Refused? ==> Valid() && Now() == Next(Next(old(Now()), Step.Return(true)), Step.Finish)
    {
      hide RunLoop.Rests, RunLoop.Conserved, RunLoop.Keeps, RunLoop.Leaves, RunTurns.Fair, Conserved;
      hide Sessions.Session.Now, Sessions.Session.Rooted, Dedup.Digest, Delivery, Bare;
      ghost var before, items, took := Now(), queue.items, |queue.accepted|;
      ghost var taken := queue.taken;
      o, d := RunLoop.RunOn(cfg, w, s, queue, hash, fuel, marks);
      if o.Panicked? || o.value.StillRunning? {
        return;
      }
      if o.value.Refused? {
        ReturnEarly();
        return;
      }
      ghost var more := queue.accepted[took..];
      Arrived(taken, items, queue.accepted, d.drained, o.value.undelivered, s.posts, d.mail);
      Settle(o.value.undelivered, d.drained, more);
      if Conserved(before) {
        TurnConserves(before, Now(), items, more, d.drained, o.value.undelivered);
      }
    }

    /** The turn never reached its loop. */
    method ReturnEarly()
      requires Valid() && phase.Running?
      modifies this
      ensures Valid() && Now() == Next(Next(old(Now()), Step.Return(true)), Step.Finish)
    {
      phase := Ended([]);
      Finish([]);
    }

    /** The turn is over: it told these, hands those back, and more came in meanwhile. */
    method Settle(left: seq<Message>, ghost drained: seq<Message>, ghost more: seq<Queued>)
      requires Valid() && phase.Running? && queue != null && queue.items == []
      modifies this
      ensures Valid() && TurnEnds(old(Now()), Now(), drained, left) && accepted == old(accepted) + more
    {
      told, accepted, phase := told + drained, accepted + more, Ended(left);
      assert lost + [] == lost;
      Finish(left);
    }

    /** The turn returns: past the point where it registered the close of its queue, or before. */
    method Return(early: bool)
      requires Valid() && phase.Running?
      modifies this`phase, queue
      ensures Valid() && Now() == Next(old(Now()), Step.Return(early))
    {
      if early {
        phase := Ended([]);
      } else {
        var left := queue.Close();
        phase := Ended(left);
      }
    }
  }

  /** From a to b a turn told these and handed those back; its queue is empty, and nothing is lost. */
  ghost predicate TurnEnds(a: State, b: State, told: seq<Message>, left: seq<Message>) {
    && b.told == a.told + told && b.undelivered == a.undelivered + left && b.lost == a.lost && b.pending == a.pending
    && b.phase.Idle? && b.own.None? && ItemsOf(b.host) == [] && a.accepted <= b.accepted
  }

  /** What a turn told and what it hands back is what was in its queue and what came in since. */
  lemma Arrived(taken: seq<Queued>, items: seq<Queued>, now: seq<Queued>, drained: seq<Message>, left: seq<Message>,
                posts: seq<Ledgers.Post>, mail: seq<nat>)
    requires RunLoop.Conserved(taken, now, posts, drained, mail, left) && taken + items <= now
    ensures multiset(drained + left) == multiset(Bare(items + now[|taken + items|..]))
  {
    assert now[|taken|..] == items + now[|taken + items|..];
  }

  lemma TurnConserves(a: State, b: State, items: seq<Queued>, more: seq<Queued>, drained: seq<Message>, left: seq<Message>)
    requires Conserved(a) && TurnEnds(a, b, drained, left) && b.accepted == a.accepted + more
    requires a.phase.Running? && Sane(a) && a.Live().Some? && a.Live().value.items == items
    requires multiset(drained + left) == multiset(Bare(items + more))
    ensures Conserved(b)
  {
    hide Queueds, Bares;
    forall x ensures Queueds(b.accepted, x) == Held(b, x) {
      assert Queueds(a.accepted, x) == Held(a, x);
      QueuedsMore(a.accepted, more, x);
      QueuedsMore(items, more, x);
      QueuedsMore([], [], x);
      BaresMore(a.told, drained, x);
      BaresMore(a.undelivered, left, x);
      BaresMore(drained, left, x);
      SameCount(drained + left, items + more, x);
    }
  }

  lemma SameCount(ms: seq<Message>, items: seq<Queued>, x: Message)
    requires multiset(ms) == multiset(Bare(items))
    ensures Bares(ms, x) == Queueds(items, x)
  {
  }
}
