/** What a run writes down of itself, and what must hold of it (internal/loop/run_loop.go). */
module RunRecords {
  import opened Wrappers
  import opened Messages
  import opened Nodes
  import opened Lists
  import opened Convert
  import opened Protocol
  import opened Ledgers
  import opened Sessions
  import opened Fingerprints
  import Dedup
  import StreamStrings

  datatype Tool = Tool(name: string, readonly: bool)

  datatype ToolOutput = ToolOutput(content: string, isError: bool)

  // The loop's own notices, shortened.
  const WrapUp := Plain(User, "", "wrap_up", "Write your final answer now.")
  const StuckNudge := Plain(User, "", "stop_nudge", "You have requested the same tool calls several times in a row.")

  /** Where a message that joins during a run comes from; after one from the inbox, `left` was handed over with it. */
  datatype Source = FromQueue | FromInbox(left: seq<Message>) | FromWatch | FromLoop

  /** What passes between a run and the others, in order: a model call with its number, what it was sent, the row
      the host keeps for it, what it streamed, the results tools gave from that stream and whether it failed; a summary,
      and where on the path it stands; what was taken from the queue; what the inbox and the watch held when they were
      asked; a message told to the conversation; a turn that asked for tools; a batch run to its end, with what the hooks left of each call and what it
      came to; and that its results are recorded. */
  datatype Event =
    | Called(number: nat, prompt: seq<Message>, tools: seq<Tool>, wrapUp: bool, row: string,
             pieces: seq<Piece>, refused: map<string, ToolOutput>, failed: bool)
    | Compacted(summary: string, at: nat)
    | Taken(queued: seq<Message>)
    | Polled(inbox: seq<Message>)
    | Watched(notice: Option<Message>)
    | Told(m: Message, source: Source)
    | Batch(calls: seq<ToolCall>, refused: map<string, ToolOutput>)
    | Ran(done: seq<ToolCall>, asked: seq<ToolCall>, outputs: seq<ToolOutput>)
    | Recorded

  /** What the others answer, by the number of events there were before: what a call streams, which of its calls are
      answered at once, the summary, the inbox, the watch, the batch to run instead, and for the k-th call of a batch
      what the hook leaves of it and what the tool gives. */
  datatype World = World(
    pieces: nat -> seq<Piece>, refused: nat -> map<string, ToolOutput>, summary: nat -> Option<string>,
    inbox: nat -> seq<Message>, notice: nat -> Option<Message>, batch: nat -> seq<ToolCall>,
    hook: (nat, nat) -> Option<ToolCall>, output: (nat, nat) -> ToolOutput)

  /** The parts a call left. */
  function BodiesIn(pieces: seq<Piece>): seq<Body> {
    AllClosed(Assembled(pieces))
  }

  /** The calls among parts, as flat calls. */
  function CallsIn(bodies: seq<Body>): seq<ToolCall> {
    if bodies == [] then []
    else
      var b := bodies[|bodies| - 1];
      CallsIn(bodies[..|bodies| - 1])
      + if b.ToolCallBody? then [ToolCall(b.callId, b.name, ToolArgs(b.arguments.Current()))] else []
  }

  // --- requests

  predicate Uncut(log: seq<Event>, i: nat, j: nat)
    requires j <= |log|
  {
    forall k :: i < k < j ==> !log[k].Compacted?
  }

  /** Between two compactions each call is given everything the earlier ones were, and possibly more. */
  predicate PromptsGrow(log: seq<Event>) {
    forall i, j :: 0 <= i < j < |log| && log[i].Called? && log[j].Called? && Uncut(log, i, j) ==> log[i].prompt <= log[j].prompt
  }

  /** The newest prompt since the last compaction. */
  function LastPrompt(log: seq<Event>): Option<seq<Message>> {
    if log == [] || log[|log| - 1].Compacted? then None
    else if log[|log| - 1].Called? then Some(log[|log| - 1].prompt)
    else LastPrompt(log[..|log| - 1])
  }

  lemma {:induction false} LastIsLongest(log: seq<Event>, i: nat)
    requires PromptsGrow(log) && i < |log| && log[i].Called? && Uncut(log, i, |log|)
    ensures LastPrompt(log).Some? && log[i].prompt <= LastPrompt(log).value
  {
    var last := log[|log| - 1];
    if i < |log| - 1 {
      if last.Called? {
        assert Uncut(log, i, |log| - 1);
      } else {
        LastIsLongest(log[..|log| - 1], i);
      }
    }
  }

  lemma PromptsGrowCalled(log: seq<Event>, e: Event)
    requires PromptsGrow(log) && e.Called? && (LastPrompt(log).Some? ==> LastPrompt(log).value <= e.prompt)
    ensures PromptsGrow(log + [e])
    ensures LastPrompt(log + [e]) == Some(e.prompt)
  {
    var more := log + [e];
    forall i, j | 0 <= i < j < |more| && more[i].Called? && more[j].Called? && Uncut(more, i, j) ensures more[i].prompt <= more[j].prompt {
      assert forall k :: i < k < j ==> more[k] == log[k];
      assert Uncut(log, i, j);
      if j == |log| {
        LastIsLongest(log, i);
      }
    }
  }

  lemma PromptsGrowOther(log: seq<Event>, e: Event)
    requires PromptsGrow(log) && !e.Called?
    ensures PromptsGrow(log + [e])
    ensures LastPrompt(log + [e]) == if e.Compacted? then None else LastPrompt(log)
  {
    var more := log + [e];
    assert more[..|log|] == log;
    forall i, j | 0 <= i < j < |more| && more[i].Called? && more[j].Called? && Uncut(more, i, j) ensures more[i].prompt <= more[j].prompt {
      assert forall k :: i < k < j ==> more[k] == log[k];
      assert Uncut(log, i, j);
    }
  }

  predicate Prompted(log: seq<Event>, v: Ledger) {
    && PromptsGrow(log)
    && (LastPrompt(log).Some? ==> v.start <= v.sent <= |v.trail| && LastPrompt(log).value == v.Sent())
  }

  lemma PromptedCalled(log: seq<Event>, v: Ledger, e: Event)
    requires Prompted(log, v) && Sound(v) && v.start <= |v.trail| && e.Called? && e.prompt == v.Window()
    ensures Prompted(log + [e], v.Asked())
  {
    hide Sound, PromptsGrow, LastPrompt;
    WindowExtendsSent(v);
    SoundAsked(v);
    PromptsGrowCalled(log, e);
  }

  // --- calls counted

  function Calls(log: seq<Event>): nat {
    if log == [] then 0 else Calls(log[..|log| - 1]) + if log[|log| - 1].Called? then 1 else 0
  }

  /** A call within the cap: numbered up to it, without tools when it is the wrap-up's or numbered the cap. */
  predicate WithinCap(e: Event, maxTurns: int) {
    e.Called? ==>
      && (e.wrapUp ==> e.tools == [])
      && (maxTurns > 0 ==> e.number <= maxTurns && (e.number == maxTurns ==> e.tools == []))
  }

  /** Every call is counted, and within the cap. */
  predicate Counted(log: seq<Event>, maxTurns: int, turns: nat) {
    Calls(log) == turns && forall i :: 0 <= i < |log| ==> WithinCap(log[i], maxTurns)
  }

  lemma CountedMore(log: seq<Event>, maxTurns: int, turns: nat, e: Event)
    requires Counted(log, maxTurns, turns)
    requires WithinCap(e, maxTurns)
    ensures Counted(log + [e], maxTurns, if e.Called? then turns + 1 else turns)
  {
    assert (log + [e])[..|log|] == log;
  }

  // --- the same batch again and again

  const StuckNudgeAt := 3
  const StuckFailAt := 6

  /** Every batch the model asked for so far. */
  function Batches(log: seq<Event>): seq<seq<ToolCall>> {
    if log == [] then []
    else Batches(log[..|log| - 1]) + if log[|log| - 1].Batch? then [log[|log| - 1].calls] else []
  }

  /** How often in a row the newest batch has been asked for. */
  function Streak(bs: seq<seq<ToolCall>>): nat {
    if bs == [] then 0
    else if |bs| > 1 && SameBatch(bs[|bs| - 2], bs[|bs| - 1]) then Streak(bs[..|bs| - 1]) + 1
    else 1
  }

  lemma SameBatchTrans(a: seq<ToolCall>, b: seq<ToolCall>, c: seq<ToolCall>)
    requires SameBatch(a, b) && SameBatch(b, c)
    ensures SameBatch(a, c)
  {
  }

  /** What the streak says: so many of the newest batches are the same, and the one before them, if any, is not. */
  lemma {:induction false} StreakMeans(bs: seq<seq<ToolCall>>)
    ensures Streak(bs) <= |bs| && (bs != [] ==> Streak(bs) > 0)
    ensures forall i :: |bs| - Streak(bs) <= i < |bs| ==> SameBatch(bs[i], bs[|bs| - 1])
    ensures 0 < Streak(bs) < |bs| ==> !SameBatch(bs[|bs| - Streak(bs) - 1], bs[|bs| - 1])
  {
    if |bs| > 1 && SameBatch(bs[|bs| - 2], bs[|bs| - 1]) {
      hide SameBatch;
      var init := bs[..|bs| - 1];
      StreakMeans(init);
      forall i | |bs| - Streak(bs) <= i < |bs| - 1 ensures SameBatch(bs[i], bs[|bs| - 1]) {
        SameBatchTrans(init[i], init[|init| - 1], bs[|bs| - 1]);
      }
      if Streak(bs) < |bs| {
        var before := bs[|bs| - Streak(bs) - 1];
        SameBatchBack(before, bs[|bs| - 2], bs[|bs| - 1]);
      }
      SameBatchSelf(bs[|bs| - 1]);
    }
  }

  lemma SameBatchSelf(a: seq<ToolCall>)
    ensures SameBatch(a, a)
  {
  }

  lemma SameBatchBack(a: seq<ToolCall>, b: seq<ToolCall>, c: seq<ToolCall>)
    requires SameBatch(b, c)
    ensures SameBatch(a, b) <==> SameBatch(a, c)
  {
  }

  /** After these events the nudge comes exactly when a third batch in a row was just recorded, and a sixth never runs. */
  predicate StuckAt(before: seq<Event>, e: Event) {
    && (IsNudge(e) <==> before != [] && before[|before| - 1].Recorded? && Streak(Batches(before)) == StuckNudgeAt)
    && (e.Ran? ==> Streak(Batches(before)) < StuckFailAt)
  }

  predicate StuckRules(log: seq<Event>) {
    forall i :: 0 <= i < |log| ==> StuckAt(log[..i], log[i])
  }

  predicate IsNudge(e: Event) {
    e == Told(StuckNudge, FromLoop)
  }

  /** The counter is the streak, and the text kept is the fingerprint of the newest batch. */
  predicate Stuck(log: seq<Event>, repeats: nat, lastBatch: string) {
    && StuckRules(log) && repeats == Streak(Batches(log))
    && lastBatch == (if Batches(log) == [] then "" else Fingerprint(Batches(log)[|Batches(log)| - 1]))
    && (forall i :: 0 <= i < |Batches(log)| ==> Batches(log)[i] != [])
  }

  /** A batch whose results were just recorded still wants its nudge. */
  predicate NudgeDue(log: seq<Event>, repeats: nat) {
    log != [] && log[|log| - 1].Recorded? && repeats == StuckNudgeAt
  }

  lemma BatchesSnoc(log: seq<Event>, e: Event)
    ensures Batches(log + [e]) == Batches(log) + if e.Batch? then [e.calls] else []
  {
    assert (log + [e])[..|log|] == log;
  }

  lemma StuckRulesMore(log: seq<Event>, e: Event)
    requires StuckRules(log) && StuckAt(log, e)
    ensures StuckRules(log + [e])
  {
    hide StuckAt;
    var more := log + [e];
    forall i | 0 <= i < |more| ensures StuckAt(more[..i], more[i]) {
      assert more[..i] == log[..i];
      assert log[..|log|] == log;
    }
  }

  lemma StuckBatch(log: seq<Event>, repeats: nat, lastBatch: string, calls: seq<ToolCall>, refused: map<string, ToolOutput>)
    requires Stuck(log, repeats, lastBatch) && calls != [] && !NudgeDue(log, repeats)
    ensures Stuck(log + [Batch(calls, refused)],
                  if Fingerprint(calls) == lastBatch then repeats + 1 else 1, Fingerprint(calls))
  {
    hide Batches, StuckRules, Fingerprint;
    var bs := Batches(log);
    BatchesSnoc(log, Batch(calls, refused));
    StuckRulesMore(log, Batch(calls, refused));
    assert (bs + [calls])[..|bs|] == bs;
    if bs == [] {
      EmptyPrint(calls);
    } else {
      FingerprintTells(bs[|bs| - 1], calls);
    }
  }

  lemma StuckOther(log: seq<Event>, repeats: nat, lastBatch: string, e: Event)
    requires Stuck(log, repeats, lastBatch) && !e.Batch?
    requires e.Ran? ==> repeats < StuckFailAt
    requires IsNudge(e) <==> NudgeDue(log, repeats)
    ensures Stuck(log + [e], repeats, lastBatch)
  {
    hide Batches, StuckRules, Fingerprint, Streak;
    BatchesSnoc(log, e);
    assert Batches(log) + [] == Batches(log);
    StuckRulesMore(log, e);
  }

  // --- what follows what

  /** The first of the messages from the inbox is told. */
  predicate FirstOf(e: Event, ms: seq<Message>) {
    ms != [] && e == Told(ms[0], FromInbox(ms[1..]))
  }

  /** What the watch has to say, as a message. */
  function Notice(m: Message): Message {
    Plain(User, m.id, "resource_notice", m.content)
  }

  /** The event that what a party said calls for, next. */
  predicate Meets(prev: Event, e: Event) {
    match prev
    case Polled(ms) => FirstOf(e, ms)
    case Told(_, source) => source.FromInbox? && FirstOf(e, source.left)
    case Watched(m) => m.Some? && e == Told(Notice(m.value), FromWatch)
    case Batch(_, _) => e.Ran?
    case Ran(_, _, _) => e.Recorded?
    case Called(_, _, _, wrapUp, _, pieces, refused, failed) => !wrapUp && !failed && e == Batch(CallsIn(BodiesIn(pieces)), refused)
    case _ => false
  }

  /** Whether something is called for next, unless the run ends here. */
  predicate Awaits(prev: Event, maxTurns: int) {
    match prev
    case Polled(ms) => ms != []
    case Told(_, source) => source.FromInbox? && source.left != []
    case Watched(m) => m.Some?
    case Batch(_, _) => true
    case Ran(_, _, _) => true
    case Called(number, _, _, wrapUp, _, pieces, _, failed) =>
      !wrapUp && !failed && CallsIn(BodiesIn(pieces)) != [] && (maxTurns <= 0 || number < maxTurns)
    case _ => false
  }

  /** Events that only come when the one before calls for them. */
  predicate Needed(e: Event) {
    e.Recorded? || e.Batch? || (e.Told? && (e.source.FromInbox? || e.source.FromWatch?))
  }

  predicate Links(prev: Option<Event>, e: Event, maxTurns: int) {
    && (prev.Some? && Awaits(prev.value, maxTurns) ==> Meets(prev.value, e))
    && (Needed(e) ==> prev.Some? && Meets(prev.value, e))
    && (e.Ran? ==> prev.Some? && prev.value.Batch?)
    && (e.Told? && e.source.FromLoop? ==> e.m == StuckNudge || e.m == WrapUp)
  }

  function Last(log: seq<Event>): Option<Event> {
    if log == [] then None else Some(log[|log| - 1])
  }

  /** Every message that came from the inbox or the watch was told at once, every batch is what the call before it
      asked for and was run, and every batch that ran was recorded, before anything else happened. */
  predicate Chained(log: seq<Event>, maxTurns: int) {
    forall i :: 0 <= i < |log| ==> Links(Last(log[..i]), log[i], maxTurns)
  }

  /** Nothing is called for next. */
  predicate Free(log: seq<Event>, maxTurns: int) {
    log == [] || !Awaits(log[|log| - 1], maxTurns)
  }

  lemma ChainedMore(log: seq<Event>, maxTurns: int, e: Event)
    requires Chained(log, maxTurns) && Links(Last(log), e, maxTurns)
    ensures Chained(log + [e], maxTurns)
  {
    hide Links, Last;
    var more := log + [e];
    forall i | 0 <= i < |more| ensures Links(Last(more[..i]), more[i], maxTurns) {
      assert more[..i] == log[..i];
      assert log[..|log|] == log;
    }
  }

  // --- what the record holds of it

  function PiecesIn(e: Event): seq<seq<Piece>> {
    if e.Called? then [e.pieces] else []
  }

  function ToldIn(e: Event): seq<Message> {
    if e.Told? then [e.m] else []
  }

  function QueuedIn(e: Event): seq<Message> {
    if e.Told? && e.source.FromQueue? then [e.m] else []
  }

  /** The i-th event is what the world answered; a call of a batch comes to what was given from the stream, or else to
      what its tool gives. */
  predicate FollowsAt(log: seq<Event>, i: nat, w: World)
    requires i < |log|
  {
    match log[i]
    case Called(_, _, _, _, _, pieces, refused, _) => pieces == w.pieces(i) && refused == w.refused(i)
    case Compacted(summary, _) => w.summary(i) == Some(summary)
    case Polled(ms) => ms == w.inbox(i)
    case Watched(m) => m == w.notice(i)
    case Ran(done, asked, outputs) =>
      && done == w.batch(i) && i > 0 && log[i - 1].Batch?
      && Resolves(w, i, log[i - 1].refused, done, asked, outputs)
    case _ => true
  }

  predicate Resolves(w: World, i: nat, refused: map<string, ToolOutput>, done: seq<ToolCall>, asked: seq<ToolCall>, outputs: seq<ToolOutput>) {
    && |done| == |asked| == |outputs|
    && forall k :: 0 <= k < |asked| ==>
         && w.hook(i, k) == Some(asked[k])
         && outputs[k] == if asked[k].id in refused then refused[asked[k].id] else w.output(i, k)
  }

  /** All that was heard from the world is what it answered. */
  predicate Follows(log: seq<Event>, w: World) {
    forall i :: 0 <= i < |log| ==> FollowsAt(log, i, w)
  }

  lemma FollowsMore(log: seq<Event>, w: World, e: Event)
    requires Follows(log, w) && FollowsAt(log + [e], |log|, w)
    ensures Follows(log + [e], w)
  {
    hide Resolves;
    forall i | 0 <= i < |log + [e]| ensures FollowsAt(log + [e], i, w) {
      assert i < |log| ==> FollowsAt(log, i, w);
    }
  }

  /** The record grew by these messages, in this order. */
  predicate AreTold(was: seq<Post>, posts: seq<Post>, msgs: seq<Message>) {
    && |posts| == |was| + |msgs| && was <= posts
    && forall i :: |was| <= i < |posts| ==> posts[i].m == msgs[i - |was|]
  }

  /** The record grew by these calls, in this order, each with the parts its pieces make. */
  predicate AreStreamed(was: seq<Stream>, streams: seq<Stream>, calls: seq<seq<Piece>>) {
    && |streams| == |was| + |calls| && was <= streams
    && forall i :: |was| <= i < |streams| ==> streams[i].bodies == BodiesIn(calls[i - |was|])
  }

  /** Where the window starts after these events, when it started at `start` before them. */
  function StartAt(log: seq<Event>, start: nat): nat {
    if log == [] then start
    else if log[|log| - 1].Compacted? then log[|log| - 1].at
    else StartAt(log[..|log| - 1], start)
  }

  /** How many model calls are on the record before the i-th event. */
  function CallsBefore(log: seq<Event>, i: nat, v0: Ledger): nat
    requires i <= |log|
  {
    |v0.streams| + |FlatMap(PiecesIn, log[..i])|
  }

  /** The i-th event is a call that was sent the window as it stood when its own parts began to join, with every earlier
      call of the loop answered and every earlier summary before it. */
  ghost predicate CarriesAt(log: seq<Event>, i: nat, v0: Ledger, v: Ledger)
    requires i < |log| && log[i].Called?
  {
    var k := CallsBefore(log, i, v0);
    var from := StartAt(log[..i], v0.start);
    && k < |v.streams| && from <= v.streams[k].at <= v.sent <= |v.trail|
    && log[i].prompt == Flatten(v.trail[from..v.streams[k].at])
    && AllAnswered(v.trail[..v.streams[k].at], v.foreign) && SummariesBelow(log[..i], v.streams[k].at)
  }

  predicate SummariesBelow(log: seq<Event>, n: nat) {
    forall i :: 0 <= i < |log| && log[i].Compacted? ==> log[i].at < n
  }

  predicate CompactsAt(e: Event, v: Ledger)
    requires e.Compacted?
  {
    && e.at < |v.trail| && v.trail[e.at].kind == CompactionKind
    && v.trail[e.at].body.CompactionBody? && v.trail[e.at].body.summary == StreamStrings.Finished(e.summary)
  }

  /** Every call was sent its window with nothing open, every summary stands on the path, and the window starts at the newest. */
  ghost predicate Carries(log: seq<Event>, v0: Ledger, v: Ledger) {
    && v.start == StartAt(log, v0.start) && |v0.trail| <= |v.trail|
    && forall i :: 0 <= i < |log| ==>
         (log[i].Called? ==> CarriesAt(log, i, v0, v)) && (log[i].Compacted? ==> CompactsAt(log[i], v) && |v0.trail| <= log[i].at)
  }

  /** What was sent stays as it was: b continues a. */
  predicate SentStays(a: Ledger, b: Ledger) {
    && a.sent <= b.sent && a.sent <= |a.trail| <= |b.trail| && b.sent <= |b.trail|
    && b.trail[..a.sent] == a.trail[..a.sent]
    && (forall i :: 0 <= i < |a.trail| ==> b.trail[i].body == a.trail[i].body && b.trail[i].kind == a.trail[i].kind)
    && a.streams <= b.streams && a.foreign <= b.foreign
  }

  lemma AnsweredStill(t: seq<Node>, foreign: set<Ref>, wider: set<Ref>)
    requires AllAnswered(t, foreign) && foreign <= wider
    ensures AllAnswered(t, wider)
  {
    hide HasAnswer;
  }

  lemma CarriesAtStill(log: seq<Event>, more: seq<Event>, i: nat, v0: Ledger, a: Ledger, b: Ledger)
    requires i < |log| && log <= more && log[i].Called? && CarriesAt(log, i, v0, a) && SentStays(a, b)
    ensures CarriesAt(more, i, v0, b)
  {
    hide StartAt, FlatMap, Flatten, AllAnswered;
    assert more[..i] == log[..i];
    var from := StartAt(log[..i], v0.start);
    var to := a.streams[CallsBefore(log, i, v0)].at;
    SliceStays(a.trail, b.trail, from, to, a.sent);
    SliceStays(a.trail, b.trail, 0, to, a.sent);
    assert a.trail[0..to] == a.trail[..to] && b.trail[0..to] == b.trail[..to];
    AnsweredStill(a.trail[..to], a.foreign, b.foreign);
  }

  lemma SliceStays(t: seq<Node>, u: seq<Node>, from: nat, to: nat, n: nat)
    requires from <= to <= n <= |t| && n <= |u| && t[..n] == u[..n]
    ensures t[from..to] == u[from..to]
  {
    forall i | from <= i < to ensures t[i] == u[i] {
      assert t[..n][i] == u[..n][i];
    }
  }

  lemma CarriesStill(log: seq<Event>, more: seq<Event>, v0: Ledger, a: Ledger, b: Ledger)
    requires Carries(log, v0, a) && SentStays(a, b) && log <= more
    ensures forall i :: 0 <= i < |log| ==>
              (more[i].Called? ==> CarriesAt(more, i, v0, b)) && (more[i].Compacted? ==> CompactsAt(more[i], b) && |v0.trail| <= more[i].at)
    ensures |v0.trail| <= |b.trail|
  {
    hide CarriesAt, StartAt, CompactsAt;
    forall i | 0 <= i < |log|
      ensures (more[i].Called? ==> CarriesAt(more, i, v0, b)) && (more[i].Compacted? ==> CompactsAt(more[i], b))
    {
      if log[i].Called? {
        CarriesAtStill(log, more, i, v0, a, b);
      } else if log[i].Compacted? {
        CompactsStill(log[i], a, b);
      }
    }
  }

  lemma CompactsStill(e: Event, a: Ledger, b: Ledger)
    requires e.Compacted? && CompactsAt(e, a) && SentStays(a, b)
    ensures CompactsAt(e, b)
  {
  }

  lemma SentStaysSelf(v: Ledger)
    requires v.sent <= |v.trail|
    ensures SentStays(v, v)
  {
  }

  lemma CarriesOnward(log: seq<Event>, v0: Ledger, a: Ledger, b: Ledger)
    requires Carries(log, v0, a) && SentStays(a, b) && b.start == a.start
    ensures Carries(log, v0, b)
  {
    hide CarriesAt, SentStays, StartAt;
    CarriesStill(log, log, v0, a, b);
  }

  lemma CarriesOther(log: seq<Event>, v0: Ledger, v: Ledger, e: Event)
    requires Carries(log, v0, v) && v.sent <= |v.trail| && !e.Called? && !e.Compacted?
    ensures Carries(log + [e], v0, v)
  {
    hide CarriesAt, SentStays;
    SentStaysSelf(v);
    CarriesStill(log, log + [e], v0, v, v);
    assert (log + [e])[..|log|] == log;
  }

  lemma CarriesCalled(log: seq<Event>, v0: Ledger, a: Ledger, ns: seq<Node>, bodies: seq<Body>, e: Event)
    requires Carries(log, v0, a) && a.start <= |a.trail| && a.sent <= |a.trail| && AllAnswered(a.trail, a.foreign)
    requires |a.streams| == |v0.streams| + |FlatMap(PiecesIn, log)|
    requires e.Called? && e.prompt == a.Window()
    ensures Carries(log + [e], v0, a.Asked().Streamed(ns, bodies))
  {
    hide CarriesAt, SentStays, Flatten, FlatMap, AllAnswered;
    var b := a.Asked().Streamed(ns, bodies);
    SentStaysCalled(a, ns, bodies);
    CarriesStill(log, log + [e], v0, a, b);
    assert (log + [e])[..|log|] == log;
    forall i | 0 <= i < |log| && log[i].Compacted? ensures log[i].at < |a.trail| {
      assert CompactsAt(log[i], a);
    }
    CarriesThis(log, v0, a, ns, bodies, e);
  }

  lemma SentStaysCalled(a: Ledger, ns: seq<Node>, bodies: seq<Body>)
    requires a.sent <= |a.trail|
    ensures SentStays(a, a.Asked().Streamed(ns, bodies))
  {
  }

  lemma CarriesThis(log: seq<Event>, v0: Ledger, a: Ledger, ns: seq<Node>, bodies: seq<Body>, e: Event)
    requires a.start == StartAt(log, v0.start) && a.start <= |a.trail| && AllAnswered(a.trail, a.foreign) && SummariesBelow(log, |a.trail|)
    requires |a.streams| == |v0.streams| + |FlatMap(PiecesIn, log)|
    requires e.Called? && e.prompt == a.Window()
    ensures CarriesAt(log + [e], |log|, v0, a.Asked().Streamed(ns, bodies))
  {
    hide StartAt, FlatMap, Flatten, AllAnswered;
    assert (log + [e])[..|log|] == log;
    assert (a.trail + ns)[a.start..|a.trail|] == a.trail[a.start..];
    assert (a.trail + ns)[..|a.trail|] == a.trail;
  }

  lemma CarriesCompacted(log: seq<Event>, v0: Ledger, a: Ledger, c: Node, e: Event)
    requires Carries(log, v0, a) && a.sent <= |a.trail|
    requires e.Compacted? && e.at == |a.trail| && c.kind == CompactionKind
    requires c.body.CompactionBody? && c.body.summary == StreamStrings.Finished(e.summary)
    ensures Carries(log + [e], v0, a.Compacted(c))
  {
    hide CarriesAt, SentStays;
    SentStaysCompacted(a, c);
    CarriesStill(log, log + [e], v0, a, a.Compacted(c));
    assert (log + [e])[..|log|] == log;
  }

  lemma SentStaysCompacted(a: Ledger, c: Node)
    requires a.sent <= |a.trail|
    ensures SentStays(a, a.Compacted(c))
  {
  }

  /** From v0 on, everything that joined is what the log says: the messages told, and the calls made, and nothing else;
      and each call was sent its window. */
  ghost predicate Tied(log: seq<Event>, v0: Ledger, v: Ledger) {
    && AreTold(v0.posts, v.posts, FlatMap(ToldIn, log))
    && AreStreamed(v0.streams, v.streams, FlatMap(PiecesIn, log))
    && Carries(log, v0, v)
  }

  lemma TiedTold(log: seq<Event>, v0: Ledger, a: Ledger, m: Message, ns: seq<Node>, source: Source)
    requires Tied(log, v0, a) && a.sent <= |a.trail|
    ensures Tied(log + [Told(m, source)], v0, a.Told(m, ns))
  {
    hide FlatMap, BodiesIn, Carries;
    var e := Event.Told(m, source);
    FlatMapSnoc(ToldIn, log, e);
    FlatMapSnoc(PiecesIn, log, e);
    assert FlatMap(PiecesIn, log) + [] == FlatMap(PiecesIn, log);
    CarriesOther(log, v0, a, e);
    CarriesOnward(log + [e], v0, a, a.Told(m, ns));
  }

  lemma TiedCalled(log: seq<Event>, v0: Ledger, a: Ledger, ns: seq<Node>, e: Event)
    requires Tied(log, v0, a) && a.start <= |a.trail| && a.sent <= |a.trail| && e.Called? && e.prompt == a.Window()
    requires AllAnswered(a.trail, a.foreign)
    ensures Tied(log + [e], v0, a.Asked().Streamed(ns, BodiesIn(e.pieces)))
  {
    hide FlatMap, BodiesIn, Carries, Flatten, AllAnswered;
    FlatMapSnoc(ToldIn, log, e);
    FlatMapSnoc(PiecesIn, log, e);
    assert FlatMap(ToldIn, log) + [] == FlatMap(ToldIn, log);
    CarriesCalled(log, v0, a, ns, BodiesIn(e.pieces), e);
  }

  /** The event e adds no message and no call of its own. */
  lemma JoinsNothing(log: seq<Event>, e: Event)
    requires !e.Called? && !e.Told?
    ensures FlatMap(ToldIn, log + [e]) == FlatMap(ToldIn, log) && FlatMap(PiecesIn, log + [e]) == FlatMap(PiecesIn, log)
  {
    hide FlatMap;
    FlatMapSnoc(ToldIn, log, e);
    FlatMapSnoc(PiecesIn, log, e);
    assert FlatMap(ToldIn, log) + [] == FlatMap(ToldIn, log);
    assert FlatMap(PiecesIn, log) + [] == FlatMap(PiecesIn, log);
  }

  lemma TiedCompacted(log: seq<Event>, v0: Ledger, a: Ledger, c: Node, e: Event)
    requires Tied(log, v0, a) && a.sent <= |a.trail|
    requires e.Compacted? && e.at == |a.trail| && c.kind == CompactionKind
    requires c.body.CompactionBody? && c.body.summary == StreamStrings.Finished(e.summary)
    ensures Tied(log + [e], v0, a.Compacted(c))
  {
    hide FlatMap, AreTold, AreStreamed, Carries;
    JoinsNothing(log, e);
    CarriesCompacted(log, v0, a, c, e);
  }

  lemma TiedOther(log: seq<Event>, v0: Ledger, v: Ledger, e: Event)
    requires Tied(log, v0, v) && v.sent <= |v.trail| && !e.Called? && !e.Told? && !e.Compacted?
    ensures Tied(log + [e], v0, v)
  {
    hide FlatMap, AreTold, AreStreamed, Carries;
    JoinsNothing(log, e);
    CarriesOther(log, v0, v, e);
  }

  /** What joins without being told or called leaves all that as it is. */
  lemma TiedOnward(log: seq<Event>, v0: Ledger, a: Ledger, b: Ledger)
    requires Tied(log, v0, a) && SentStays(a, b) && b.start == a.start && b.posts == a.posts && b.streams == a.streams
    ensures Tied(log, v0, b)
  {
    hide AreTold, AreStreamed, Carries, SentStays;
    CarriesOnward(log, v0, a, b);
  }

  lemma TiedAtFirst(v: Ledger)
    ensures Tied([], v, v)
  {
    assert FlatMap(ToldIn, []) == [] && FlatMap(PiecesIn, []) == [];
  }

  // --- results on the record

  /** The result of a call shows its output word for word, or is a marker that stands for exactly that output. */
  predicate ShowsOutput(n: Node, call: Ref, tool: string, output: ToolOutput, marks: map<Ref, Dedup.Key>, hash: string -> string) {
    && n.body.ToolResultBody? && n.body.answers.Linked? && n.body.answers.ref == call
    && n.body.isError == output.isError && n.body.omitted == ""
    && (if n.ref in marks then
          marks[n.ref] == Dedup.Key(tool, hash(output.content)) && !output.isError && IsMarker(n.body.content, tool)
        else n.body.content == [TextContent(output.content)])
  }

  /** The content says that the output of the tool repeats an earlier one. */
  predicate IsMarker(content: seq<Content>, tool: string) {
    |content| == 1 && content[0].TextContent? && Dedup.MarkerHead(tool) <= content[0].text
  }

  /** Marks are only set on nodes that joined after there were n. */
  predicate MarksGrow(was: map<Ref, Dedup.Key>, marks: map<Ref, Dedup.Key>, n: nat) {
    && (forall r :: r in was ==> r in marks && marks[r] == was[r])
    && (forall r :: r in marks && r !in was ==> r >= n)
  }

  predicate EachShows(ns: seq<Node>, callNodes: seq<Ref>, calls: seq<ToolCall>, outputs: seq<ToolOutput>, marks: map<Ref, Dedup.Key>, hash: string -> string, n: nat) {
    && |ns| == |outputs| <= |callNodes| && |outputs| <= |calls|
    && forall k :: 0 <= k < |ns| ==> ns[k].ref < n && ShowsOutput(ns[k], callNodes[k], calls[k].name, outputs[k], marks, hash)
  }

  lemma EachShowsStill(ns: seq<Node>, ms: seq<Node>, callNodes: seq<Ref>, calls: seq<ToolCall>, outputs: seq<ToolOutput>,
                       was: map<Ref, Dedup.Key>, marks: map<Ref, Dedup.Key>, hash: string -> string, n: nat, m: nat)
    requires EachShows(ns, callNodes, calls, outputs, was, hash, n) && MarksGrow(was, marks, n) && n <= m
    requires |ms| == |ns| && forall k :: 0 <= k < |ns| ==> ms[k].ref == ns[k].ref && ms[k].body == ns[k].body
    ensures EachShows(ms, callNodes, calls, outputs, marks, hash, m)
  {
    forall k | 0 <= k < |ms| ensures ms[k].ref < m && ShowsOutput(ms[k], callNodes[k], calls[k].name, outputs[k], marks, hash) {
      assert ms[k].ref in marks <==> ns[k].ref in was;
    }
  }

  /** The call has this id, names this tool and has these arguments. */
  predicate IsCall(b: Body, call: ToolCall) {
    b.ToolCallBody? && b.callId == call.id && b.name == call.name && ToolArgs(b.arguments.Current()) == ToolArgs(call.arguments)
  }

  /** The refs are the nodes of these calls, in that order. */
  predicate CallsMatch(nodes: seq<Node>, refs: seq<Ref>, calls: seq<ToolCall>) {
    |refs| == |calls| && forall i :: 0 <= i < |refs| ==> refs[i] < |nodes| && IsCall(nodes[refs[i]].body, calls[i])
  }

  /** The tool calls among nodes, on the wire or not. */
  function CallRefs(ns: seq<Node>): seq<Ref> {
    if ns == [] then []
    else CallRefs(ns[..|ns| - 1]) + if ns[|ns| - 1].body.ToolCallBody? then [ns[|ns| - 1].ref] else []
  }

  /** Where the parts of a model call end. */
  function EndOf(x: Stream): nat {
    x.at + |x.bodies|
  }

  predicate Gone(t: seq<Node>, from: nat, to: nat)
    requires to <= |t|
  {
    forall i :: from <= i < to && t[i].body.ToolCallBody? ==> t[i].superseded
  }

  /** A host's batch stands right after the parts of the call it replaces, call by call, and the calls among those parts
      are off the wire. */
  predicate Instead(v: Ledger, x: Stream, batch: seq<ToolCall>) {
    && EndOf(x) + |batch| <= |v.trail| && Gone(v.trail, x.at, EndOf(x))
    && forall k :: EndOf(x) <= k < EndOf(x) + |batch| ==>
         v.trail[k].body == BodyOf(batch[k - EndOf(x)]) && v.trail[k].ref !in v.foreign
  }

  function BodyOf(call: ToolCall): Body {
    ToolCallBody(call.id, call.name, Finished(call.arguments))
  }

  /** How many nodes a host's batch takes in the place of the batch that was asked for. */
  function Extra(asked: seq<ToolCall>, batch: seq<ToolCall>): nat {
    if batch == asked then 0 else |batch|
  }

  /** The calls to answer: those among the parts of the model call, or those that stand in for them. */
  function BatchRefs(v: Ledger, x: Stream, asked: seq<ToolCall>, batch: seq<ToolCall>): seq<Ref>
    requires EndOf(x) + Extra(asked, batch) <= |v.trail|
  {
    if batch == asked then CallRefs(v.trail[x.at..EndOf(x)]) else NodeRefs(v.trail[EndOf(x)..EndOf(x) + |batch|])
  }

  /** After the parts of the model call x stand the calls of the batch where they are not those asked for, and then its
      results, one for each call and in that order, each on its own call and showing what that call came to. */
  predicate ShownAfter(v: Ledger, x: Stream, asked: seq<ToolCall>, batch: seq<ToolCall>, outputs: seq<ToolOutput>, marks: map<Ref, Dedup.Key>, hash: string -> string) {
    var at := EndOf(x) + Extra(asked, batch);
    && |batch| == |outputs| && at + |outputs| <= |v.trail| && (batch != asked ==> Instead(v, x, batch))
    && CallsMatch(v.nodes, BatchRefs(v, x, asked, batch), batch)
    && EachShows(v.trail[at..at + |outputs|], BatchRefs(v, x, asked, batch), batch, outputs, marks, hash, |v.nodes|)
  }

  /** The i-th event is a batch that ran, and its results stand after the newest model call there was. */
  predicate RunShown(log: seq<Event>, i: nat, v0: Ledger, v: Ledger, marks: map<Ref, Dedup.Key>, hash: string -> string)
    requires i < |log| && log[i].Ran?
  {
    var k := CallsBefore(log, i, v0);
    && i > 0 && log[i - 1].Batch? && 0 < k <= |v.streams|
    && ShownAfter(v, v.streams[k - 1], log[i - 1].calls, log[i].done, log[i].outputs, marks, hash)
  }

  /** The batch that just ran is shown. */
  predicate LastShown(log: seq<Event>, v0: Ledger, v: Ledger, marks: map<Ref, Dedup.Key>, hash: string -> string) {
    log != [] && log[|log| - 1].Ran? ==> RunShown(log, |log| - 1, v0, v, marks, hash)
  }

  /** Every batch whose results were recorded is shown. */
  predicate AllShown(log: seq<Event>, v0: Ledger, v: Ledger, marks: map<Ref, Dedup.Key>, hash: string -> string) {
    forall i :: 0 < i < |log| && log[i].Recorded? && log[i - 1].Ran? ==> RunShown(log, i - 1, v0, v, marks, hash)
  }

  /** Where a shown batch has its k-th result: it is on the k-th call of the batch, with its id, its tool and its
      arguments, and shows what that call came to. */
  lemma ResultOfCall(log: seq<Event>, i: nat, v0: Ledger, v: Ledger, marks: map<Ref, Dedup.Key>, hash: string -> string, k: nat) returns (n: Node)
    requires i < |log| && log[i].Ran? && RunShown(log, i, v0, v, marks, hash) && k < |log[i].done|
    ensures k < |log[i].outputs| && n in v.trail && n.LinkedResult() && n.body.answers.ref < |v.nodes|
    ensures IsCall(v.nodes[n.body.answers.ref].body, log[i].done[k])
    ensures ShowsOutput(n, n.body.answers.ref, log[i].done[k].name, log[i].outputs[k], marks, hash)
  {
    hide IsCall, BatchRefs, CallsBefore, Instead, IsMarker;
    var x := v.streams[CallsBefore(log, i, v0) - 1];
    var at := EndOf(x) + Extra(log[i - 1].calls, log[i].done);
    n := v.trail[at + k];
    assert v.trail[at..at + |log[i].outputs|][k] == n;
  }

  /** The nodes and the path of b begin with those of a, but for what is superseded. */
  predicate SameBodies(a: Ledger, b: Ledger) {
    && |a.trail| <= |b.trail| && |a.nodes| <= |b.nodes| && a.streams <= b.streams && SameForeign(a, b)
    && (forall i :: 0 <= i < |a.trail| ==>
          b.trail[i].ref == a.trail[i].ref && b.trail[i].body == a.trail[i].body && (a.trail[i].superseded ==> b.trail[i].superseded))
    && (forall r :: 0 <= r < |a.nodes| ==> b.nodes[r].body == a.nodes[r].body)
  }

  /** Hosts brought in nothing of what was there already. */
  predicate SameForeign(a: Ledger, b: Ledger) {
    a.foreign <= b.foreign && forall i :: 0 <= i < |a.trail| && a.trail[i].ref in b.foreign ==> a.trail[i].ref in a.foreign
  }

  lemma {:induction false} CallRefsSame(p: seq<Node>, q: seq<Node>)
    requires |p| == |q| && forall i :: 0 <= i < |p| ==> q[i].ref == p[i].ref && q[i].body == p[i].body
    ensures CallRefs(q) == CallRefs(p)
  {
    if p != [] {
      CallRefsSame(p[..|p| - 1], q[..|q| - 1]);
    }
  }

  lemma InsteadStill(a: Ledger, b: Ledger, x: Stream, batch: seq<ToolCall>)
    requires Instead(a, x, batch) && SameBodies(a, b)
    ensures Instead(b, x, batch)
  {
  }

  lemma BatchRefsStill(a: Ledger, b: Ledger, x: Stream, asked: seq<ToolCall>, batch: seq<ToolCall>)
    requires SameBodies(a, b) && EndOf(x) + Extra(asked, batch) <= |a.trail|
    ensures EndOf(x) + Extra(asked, batch) <= |b.trail| && BatchRefs(b, x, asked, batch) == BatchRefs(a, x, asked, batch)
  {
    hide CallRefs;
    if batch == asked {
      CallRefsSame(a.trail[x.at..EndOf(x)], b.trail[x.at..EndOf(x)]);
    }
  }

  lemma {:induction false} MatchStill(nodes: seq<Node>, more: seq<Node>, refs: seq<Ref>, calls: seq<ToolCall>)
    requires CallsMatch(nodes, refs, calls) && |nodes| <= |more|
    requires forall r :: 0 <= r < |nodes| ==> more[r].body == nodes[r].body
    ensures CallsMatch(more, refs, calls)
  {
    hide IsCall;
  }

  lemma ShownAfterStill(a: Ledger, b: Ledger, x: Stream, asked: seq<ToolCall>, batch: seq<ToolCall>, outputs: seq<ToolOutput>,
                        was: map<Ref, Dedup.Key>, marks: map<Ref, Dedup.Key>, hash: string -> string)
    requires ShownAfter(a, x, asked, batch, outputs, was, hash) && SameBodies(a, b) && MarksGrow(was, marks, |a.nodes|)
    ensures ShownAfter(b, x, asked, batch, outputs, marks, hash)
  {
    hide EachShows, MarksGrow, CallsMatch, BatchRefs, Instead, SameForeign;
    var at := EndOf(x) + Extra(asked, batch);
    if batch != asked {
      InsteadStill(a, b, x, batch);
    }
    BatchRefsStill(a, b, x, asked, batch);
    MatchStill(a.nodes, b.nodes, BatchRefs(a, x, asked, batch), batch);
    EachShowsStill(a.trail[at..at + |outputs|], b.trail[at..at + |outputs|], BatchRefs(a, x, asked, batch), batch, outputs, was, marks,
                   hash, |a.nodes|, |b.nodes|);
  }

  lemma RunShownStill(log: seq<Event>, more: seq<Event>, i: nat, v0: Ledger, a: Ledger, b: Ledger, was: map<Ref, Dedup.Key>,
                      marks: map<Ref, Dedup.Key>, hash: string -> string)
    requires i < |log| && log <= more && log[i].Ran? && RunShown(log, i, v0, a, was, hash)
    requires SameBodies(a, b) && MarksGrow(was, marks, |a.nodes|)
    ensures RunShown(more, i, v0, b, marks, hash)
  {
    hide ShownAfter, MarksGrow, FlatMap;
    assert more[..i] == log[..i];
    var x := a.streams[CallsBefore(log, i, v0) - 1];
    ShownAfterStill(a, b, x, log[i - 1].calls, log[i].done, log[i].outputs, was, marks, hash);
  }

  lemma AllShownStill(log: seq<Event>, v0: Ledger, a: Ledger, b: Ledger, was: map<Ref, Dedup.Key>, marks: map<Ref, Dedup.Key>, hash: string -> string)
    requires AllShown(log, v0, a, was, hash) && SameBodies(a, b) && MarksGrow(was, marks, |a.nodes|)
    ensures AllShown(log, v0, b, marks, hash)
  {
    hide RunShown, SameBodies, MarksGrow;
    forall i | 0 < i < |log| && log[i].Recorded? && log[i - 1].Ran? ensures RunShown(log, i - 1, v0, b, marks, hash) {
      RunShownStill(log, log, i - 1, v0, a, b, was, marks, hash);
    }
  }

  lemma SelfBodies(v: Ledger, marks: map<Ref, Dedup.Key>)
    ensures SameBodies(v, v) && MarksGrow(marks, marks, |v.nodes|)
  {
  }

  lemma AllShownMore(log: seq<Event>, v0: Ledger, v: Ledger, marks: map<Ref, Dedup.Key>, hash: string -> string, e: Event)
    requires AllShown(log, v0, v, marks, hash)
    requires e.Recorded? ==> LastShown(log, v0, v, marks, hash)
    ensures AllShown(log + [e], v0, v, marks, hash)
  {
    hide RunShown, SameBodies, MarksGrow;
    var more := log + [e];
    SelfBodies(v, marks);
    forall i | 0 < i < |more| && more[i].Recorded? && more[i - 1].Ran? ensures RunShown(more, i - 1, v0, v, marks, hash) {
      assert more[i - 1] == log[i - 1];
      RunShownStill(log, more, i - 1, v0, v, v, marks, marks, hash);
    }
  }

  // --- no result is made up

  /** The i-th node of the path is a result the loop recorded, not one that says why its call did not run. */
  predicate IsResult(v: Ledger, i: nat)
    requires i < |v.trail|
  {
    RealResult(v.trail[i]) && v.trail[i].ref !in v.foreign
  }

  predicate RealResult(n: Node) {
    n.body.ToolResultBody? && n.body.answers.Linked? && n.body.omitted == ""
  }

  /** It shows what the k-th call of the batch e came to. */
  predicate Shows(e: Event, k: nat, n: Node, marks: map<Ref, Dedup.Key>, hash: string -> string) {
    && e.Ran? && k < |e.done| && k < |e.outputs| && n.body.ToolResultBody? && n.body.answers.Linked?
    && ShowsOutput(n, n.body.answers.ref, e.done[k].name, e.outputs[k], marks, hash)
  }

  ghost predicate GenuineAt(log: seq<Event>, n: Node, marks: map<Ref, Dedup.Key>, hash: string -> string) {
    exists i, k :: 0 <= i < |log| && Shows(log[i], k, n, marks, hash)
  }

  /** Every result recorded after position n shows what a call of a batch came to. */
  ghost predicate Genuine(log: seq<Event>, n: nat, v: Ledger, marks: map<Ref, Dedup.Key>, hash: string -> string) {
    forall i :: n <= i < |v.trail| && IsResult(v, i) ==> v.trail[i].ref < |v.nodes| && GenuineAt(log, v.trail[i], marks, hash)
  }

  lemma GenuineAtStill(log: seq<Event>, more: seq<Event>, n: Node, m: Node, was: map<Ref, Dedup.Key>, marks: map<Ref, Dedup.Key>, hash: string -> string, size: nat)
    requires GenuineAt(log, n, was, hash) && log <= more && MarksGrow(was, marks, size) && n.ref < size
    requires m.ref == n.ref && m.body == n.body
    ensures GenuineAt(more, m, marks, hash)
  {
    var i, k :| 0 <= i < |log| && Shows(log[i], k, n, was, hash);
    assert m.ref in marks <==> n.ref in was;
    assert more[i] == log[i];
    assert Shows(more[i], k, m, marks, hash);
  }

  /** What joins without being a result, or a host's, leaves it so. */
  lemma GenuineStill(log: seq<Event>, more: seq<Event>, n: nat, a: Ledger, b: Ledger, was: map<Ref, Dedup.Key>, marks: map<Ref, Dedup.Key>, hash: string -> string)
    requires Genuine(log, n, a, was, hash) && SameBodies(a, b) && a.foreign <= b.foreign && log <= more && MarksGrow(was, marks, |a.nodes|)
    requires forall i :: |a.trail| <= i < |b.trail| && IsResult(b, i) ==>
               b.trail[i].ref < |b.nodes| && GenuineAt(more, b.trail[i], marks, hash)
    ensures Genuine(more, n, b, marks, hash)
  {
    hide GenuineAt, RealResult, MarksGrow;
    forall i | n <= i < |b.trail| && IsResult(b, i) ensures b.trail[i].ref < |b.nodes| && GenuineAt(more, b.trail[i], marks, hash) {
      if i < |a.trail| {
        SameReal(a.trail[i], b.trail[i]);
        assert IsResult(a, i);
        GenuineAtStill(log, more, a.trail[i], b.trail[i], was, marks, hash, |a.nodes|);
      }
    }
  }

  lemma SameReal(n: Node, m: Node)
    requires m.body == n.body
    ensures RealResult(m) <==> RealResult(n)
  {
  }

  // --- markers

  /** The i-th node of the path is a result that holds content word for word, of a call of this tool. */
  predicate Verbatim(v: Ledger, marks: map<Ref, Dedup.Key>, i: nat, tool: string, content: string) {
    i < |v.trail| && v.trail[i].ref !in marks && Holding(v.nodes, v.trail[i].body, tool, content)
  }

  predicate Holding(nodes: seq<Node>, b: Body, tool: string, content: string) {
    && b.ToolResultBody? && b.answers.Linked? && !b.isError && b.content == [TextContent(content)]
    && b.answers.ref < |nodes| && nodes[b.answers.ref].body.ToolCallBody? && nodes[b.answers.ref].body.name == tool
  }

  /** Some result of the window from start on and before the n-th node is of this tool and digest, word for word. */
  ghost predicate Shown(v: Ledger, marks: map<Ref, Dedup.Key>, hash: string -> string, n: nat, tool: string, digest: string) {
    exists i, content :: v.start <= i < n && Verbatim(v, marks, i, tool, content) && hash(content) == digest
  }

  ghost predicate KeyShown(v: Ledger, marks: map<Ref, Dedup.Key>, hash: string -> string, key: string) {
    exists tool, digest :: |digest| == 64 && key == Dedup.Text(Dedup.Key(tool, digest)) && Shown(v, marks, hash, |v.trail|, tool, digest)
  }

  /** Every key the deduper holds, and every marker on the window, has its output on the window, the marker's before it. */
  ghost predicate Backed(v: Ledger, marks: map<Ref, Dedup.Key>, hash: string -> string, keys: seq<string>) {
    && (forall r :: r in marks ==> r < |v.nodes|)
    && (forall k :: 0 <= k < |keys| ==> KeyShown(v, marks, hash, keys[k]))
    && (forall j :: v.start <= j < |v.trail| && v.trail[j].ref in marks ==>
          Shown(v, marks, hash, j, marks[v.trail[j].ref].tool, marks[v.trail[j].ref].digest))
  }

  /** The ledger b continues a: the same window, more nodes, and the older nodes with the same bodies. */
  predicate Continues(a: Ledger, b: Ledger) {
    && b.start == a.start && |a.trail| <= |b.trail| && |a.nodes| <= |b.nodes|
    && (forall i :: 0 <= i < |a.trail| ==> b.trail[i].ref == a.trail[i].ref && b.trail[i].body == a.trail[i].body)
    && (forall r :: 0 <= r < |a.nodes| ==> b.nodes[r].body == a.nodes[r].body)
  }

  lemma ShownStill(a: Ledger, b: Ledger, marks: map<Ref, Dedup.Key>, more: map<Ref, Dedup.Key>, hash: string -> string, n: nat, tool: string, digest: string)
    requires Continues(a, b) && n <= |a.trail| && Shown(a, marks, hash, n, tool, digest)
    requires forall i :: 0 <= i < |a.trail| && a.trail[i].ref in more ==> a.trail[i].ref in marks
    ensures Shown(b, more, hash, n, tool, digest)
  {
    var i, content :| a.start <= i < n && Verbatim(a, marks, i, tool, content) && hash(content) == digest;
    assert Verbatim(b, more, i, tool, content);
  }

  lemma ShownLater(v: Ledger, marks: map<Ref, Dedup.Key>, hash: string -> string, n: nat, m: nat, tool: string, digest: string)
    requires Shown(v, marks, hash, n, tool, digest) && n <= m
    ensures Shown(v, marks, hash, m, tool, digest)
  {
    var i, content :| v.start <= i < n && Verbatim(v, marks, i, tool, content) && hash(content) == digest;
  }

  lemma KeyShownStill(a: Ledger, b: Ledger, marks: map<Ref, Dedup.Key>, more: map<Ref, Dedup.Key>, hash: string -> string, key: string)
    requires Continues(a, b) && KeyShown(a, marks, hash, key)
    requires forall i :: 0 <= i < |a.trail| && a.trail[i].ref in more ==> a.trail[i].ref in marks
    ensures KeyShown(b, more, hash, key)
  {
    var tool, digest :| |digest| == 64 && key == Dedup.Text(Dedup.Key(tool, digest)) && Shown(a, marks, hash, |a.trail|, tool, digest);
    ShownStill(a, b, marks, more, hash, |a.trail|, tool, digest);
    ShownLater(b, more, hash, |a.trail|, |b.trail|, tool, digest);
  }

  /** Nothing the loop adds takes an output away from its markers. */
  lemma BackedStill(a: Ledger, b: Ledger, marks: map<Ref, Dedup.Key>, hash: string -> string, keys: seq<string>)
    requires Backed(a, marks, hash, keys) && Continues(a, b)
    requires forall i :: |a.trail| <= i < |b.trail| ==> b.trail[i].ref >= |a.nodes|
    ensures Backed(b, marks, hash, keys)
  {
    hide KeyShown, Shown;
    forall k | 0 <= k < |keys| ensures KeyShown(b, marks, hash, keys[k]) {
      KeyShownStill(a, b, marks, marks, hash, keys[k]);
    }
    forall j | b.start <= j < |b.trail| && b.trail[j].ref in marks
      ensures Shown(b, marks, hash, j, marks[b.trail[j].ref].tool, marks[b.trail[j].ref].digest)
    {
      ShownStill(a, b, marks, marks, hash, j, marks[b.trail[j].ref].tool, marks[b.trail[j].ref].digest);
    }
  }

  /** A compaction takes every marker off the window along with what it stands for, when the deduper forgets too. */
  lemma BackedCompacted(a: Ledger, c: Node, marks: map<Ref, Dedup.Key>, hash: string -> string, keys: seq<string>)
    requires Backed(a, marks, hash, keys) && c.ref == |a.nodes|
    ensures Backed(a.Compacted(c), marks, hash, [])
  {
  }

  lemma BackedFewer(v: Ledger, marks: map<Ref, Dedup.Key>, hash: string -> string, keys: seq<string>, fewer: seq<string>)
    requires Backed(v, marks, hash, keys) && forall k :: k in fewer ==> k in keys
    ensures Backed(v, marks, hash, fewer)
  {
    hide KeyShown, Shown;
    forall k | 0 <= k < |fewer| ensures KeyShown(v, marks, hash, fewer[k]) {
      assert fewer[k] in keys;
    }
  }

  /** An output recorded word for word backs its key from then on. */
  lemma BackedFirst(a: Ledger, r: Node, marks: map<Ref, Dedup.Key>, hash: string -> string, keys: seq<string>, tool: string, output: string)
    requires Backed(a, marks, hash, keys) && r.ref == |a.nodes| && Holding(a.nodes, r.body, tool, output)
    requires a.start <= |a.trail| && |hash(output)| == 64
    ensures Backed(a.Grown([r], a.records), marks, hash, keys + [Dedup.Text(Dedup.Key(tool, hash(output)))])
  {
    hide KeyShown;
    var b := a.Grown([r], a.records);
    BackedStill(a, b, marks, hash, keys);
    assert Verbatim(b, marks, |a.trail|, tool, output);
    assert Shown(b, marks, hash, |b.trail|, tool, hash(output));
    KeyOfShown(b, marks, hash, tool, hash(output));
  }

  lemma KeyOfShown(v: Ledger, marks: map<Ref, Dedup.Key>, hash: string -> string, tool: string, digest: string)
    requires |digest| == 64 && Shown(v, marks, hash, |v.trail|, tool, digest)
    ensures KeyShown(v, marks, hash, Dedup.Text(Dedup.Key(tool, digest)))
  {
  }

  lemma KeyIsShown(v: Ledger, marks: map<Ref, Dedup.Key>, hash: string -> string, tool: string, digest: string)
    requires |digest| == 64 && KeyShown(v, marks, hash, Dedup.Text(Dedup.Key(tool, digest)))
    ensures Shown(v, marks, hash, |v.trail|, tool, digest)
  {
    var t, d :| |d| == 64 && Dedup.Text(Dedup.Key(tool, digest)) == Dedup.Text(Dedup.Key(t, d)) && Shown(v, marks, hash, |v.trail|, t, d);
    Dedup.TextTells(Dedup.Key(tool, digest), Dedup.Key(t, d));
  }

  /** A marker whose key the deduper held is backed. */
  lemma BackedMarker(a: Ledger, r: Node, marks: map<Ref, Dedup.Key>, hash: string -> string, keys: seq<string>, key: Dedup.Key)
    requires Backed(a, marks, hash, keys) && r.ref == |a.nodes| && |key.digest| == 64 && Dedup.Text(key) in keys
    requires RefsBelow(a.trail, |a.nodes|)
    ensures Backed(a.Grown([r], a.records), marks[r.ref := key], hash, keys)
  {
    hide KeyShown, Shown;
    var b, more := a.Grown([r], a.records), marks[r.ref := key];
    KeyIsShown(a, marks, hash, key.tool, key.digest);
    ShownStill(a, b, marks, more, hash, |a.trail|, key.tool, key.digest);
    forall k | 0 <= k < |keys| ensures KeyShown(b, more, hash, keys[k]) {
      KeyShownStill(a, b, marks, more, hash, keys[k]);
    }
    forall j | b.start <= j < |b.trail| && b.trail[j].ref in more
      ensures Shown(b, more, hash, j, more[b.trail[j].ref].tool, more[b.trail[j].ref].digest)
    {
      if j < |a.trail| {
        ShownStill(a, b, marks, more, hash, j, marks[a.trail[j].ref].tool, marks[a.trail[j].ref].digest);
      }
    }
  }

  // --- queued messages

  /** Where on the record each message a drain took stands: mail[i] is the post of drained[i]. */
  predicate Mailed(posts: seq<Post>, mail: seq<nat>, drained: seq<Message>) {
    && |mail| == |drained|
    && (forall i :: 0 <= i < |mail| ==> mail[i] < |posts| && posts[mail[i]].m == drained[i])
    && (forall i, j :: 0 <= i < j < |mail| ==> mail[i] < mail[j])
  }

  lemma MailedTold(posts: seq<Post>, mail: seq<nat>, drained: seq<Message>, p: Post)
    requires Mailed(posts, mail, drained)
    ensures Mailed(posts + [p], mail, drained)
    ensures Mailed(posts + [p], mail + [|posts|], drained + [p.m])
  {
  }

  // --- what a marker stands for

  predicate Says(n: Node, content: string) {
    n.body.ToolResultBody? && n.body.content == [TextContent(content)]
  }

  /** No output on the path has the digest of a different one. */
  ghost predicate NoCollision(v: Ledger, hash: string -> string, output: string) {
    forall i, content :: 0 <= i < |v.trail| && Says(v.trail[i], content) && hash(content) == hash(output) ==> content == output
  }

  /** A marker is preceded, on the same window, by the very output it stands for, of the same tool. */
  lemma MarkerHasContent(v: Ledger, marks: map<Ref, Dedup.Key>, hash: string -> string, keys: seq<string>, j: nat, tool: string, output: string)
    requires Backed(v, marks, hash, keys) && NoCollision(v, hash, output)
    requires v.start <= j < |v.trail| && v.trail[j].ref in marks && marks[v.trail[j].ref] == Dedup.Key(tool, hash(output))
    ensures exists i :: v.start <= i < j && Verbatim(v, marks, i, tool, output)
  {
    assert Shown(v, marks, hash, j, tool, hash(output));
    var i, content :| v.start <= i < j && Verbatim(v, marks, i, tool, content) && hash(content) == hash(output);
    assert Says(v.trail[i], content);
    assert Verbatim(v, marks, i, tool, output);
  }
}
