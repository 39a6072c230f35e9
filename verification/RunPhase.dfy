/** What happens at a turn's boundary, before its call (internal/loop/run_loop.go). */
module RunPhases {
  import opened Wrappers
  import opened Messages
  import opened RunRecords

  /** Since the newest call: whether the queue was emptied, then the inbox asked, then the watch; and the messages taken
      from the queue that are still to be told. */
  datatype Phase = Phase(took: bool, polled: bool, watched: bool, owed: seq<Message>)

  const AtFirst := Phase(false, false, false, [])

  function Moves(p: Phase, e: Event): Phase {
    match e
    case Called(_, _, _, _, _, _, _, _) => Phase(false, false, false, p.owed)
    case Taken(ms) => Phase(true, false, false, p.owed + ms)
    case Polled(_) => Phase(p.took, p.took, false, p.owed)
    case Watched(_) => p.(watched := p.polled)
    case Told(_, source) => if source.FromQueue? && p.owed != [] then p.(owed := p.owed[1..]) else p
    case _ => p
  }

  function PhaseIn(log: seq<Event>): Phase {
    if log == [] then AtFirst else Moves(PhaseIn(log[..|log| - 1]), log[|log| - 1])
  }

  /** The boundary is done: the queue was emptied, the inbox asked, and the watch where there is one. */
  predicate Prepared(p: Phase, watcher: bool) {
    p.polled && (watcher ==> p.watched)
  }

  /** What was taken from the queue is told at once, in order, before anything else; and a turn's call comes after its
      boundary. */
  predicate Attends(p: Phase, e: Event, watcher: bool) {
    && (if p.owed != [] then e.Told? && e.source.FromQueue? && e.m == p.owed[0] else !(e.Told? && e.source.FromQueue?))
    && (e.Called? && !e.wrapUp ==> Prepared(p, watcher))
  }

  predicate Attentive(log: seq<Event>, watcher: bool) {
    forall i :: 0 <= i < |log| ==> Attends(PhaseIn(log[..i]), log[i], watcher)
  }

  lemma PhaseMore(log: seq<Event>, e: Event)
    ensures PhaseIn(log + [e]) == Moves(PhaseIn(log), e)
  {
    hide Moves;
    assert (log + [e])[..|log|] == log;
  }

  lemma AttentiveMore(log: seq<Event>, e: Event, watcher: bool)
    requires Attentive(log, watcher) && Attends(PhaseIn(log), e, watcher)
    ensures Attentive(log + [e], watcher)
  {
    hide Attends, PhaseIn;
    var more := log + [e];
    assert log[..|log|] == log;
    forall i | 0 <= i < |more| ensures Attends(PhaseIn(more[..i]), more[i], watcher) {
      assert more[..i] == log[..i];
    }
  }

  /** So between any turn's call and the call before it, the queue was emptied and then the inbox asked. */
  lemma {:induction false} PreparedMeans(log: seq<Event>)
    ensures PhaseIn(log).took ==>
              exists i :: 0 <= i < |log| && log[i].Taken? && NoCalls(log, i)
    ensures PhaseIn(log).polled ==>
              exists i, j :: 0 <= i < j < |log| && log[i].Taken? && log[j].Polled? && NoCalls(log, i)
    ensures PhaseIn(log).watched ==>
              exists i, j, k :: 0 <= i < j < k < |log| && log[i].Taken? && log[j].Polled? && log[k].Watched? && NoCalls(log, i)
  {
    if log != [] {
      hide NoCalls;
      var init, e := log[..|log| - 1], log[|log| - 1];
      PreparedMeans(init);
      assert init + [e] == log;
      if !e.Called? {
        forall i | 0 <= i < |init| && NoCalls(init, i) ensures NoCalls(log, i) {
          NoCallsMore(init, e, i);
        }
        NoCallsLast(log);
        assert forall i :: 0 <= i < |init| ==> log[i] == init[i];
        assert log[|init|] == e;
      }
    }
  }

  predicate NoCalls(log: seq<Event>, i: nat) {
    forall m :: i <= m < |log| ==> !log[m].Called?
  }

  lemma NoCallsMore(log: seq<Event>, e: Event, i: nat)
    requires NoCalls(log, i) && !e.Called?
    ensures NoCalls(log + [e], i)
  {
  }

  lemma NoCallsLast(log: seq<Event>)
    requires log != [] && !log[|log| - 1].Called?
    ensures NoCalls(log, |log| - 1)
  {
  }
}
