/** What a conversation keeps as it grows: requests that only extend, calls that are answered, values that stay. */
module Ledgers {
  import opened Wrappers
  import opened Messages
  import opened Nodes
  import opened Convert
  import opened Protocol

  // --- requests only extend

  predicate CallsUnder(t: seq<Node>, fence: nat) {
    forall i :: 0 <= i < |t| && t[i].call.Some? ==> t[i].call.value < fence
  }

  /** The newest request carried t[start..sent]; every record from fence on is newer than it, and nothing after it
      continues a turn it carried. */
  predicate Fenced(t: seq<Node>, start: nat, sent: nat, fence: nat) {
    start <= sent <= |t| && CallsUnder(t[..sent], fence) && Apart(t[start..sent], t[sent..])
  }

  /** A node of this record would not continue the turn the newest request ends in. */
  predicate MayJoin(t: seq<Node>, start: nat, sent: nat, fence: nat, call: Option<nat>) {
    call.None? || call.value >= fence || (start <= sent <= |t| && Read(t[start..sent]).group == [])
  }

  lemma {:induction false} ReadCall(p: seq<Node>, fence: nat)
    requires CallsUnder(p, fence)
    ensures Read(p).call.Some? ==> Read(p).call.value < fence
  {
    if p != [] {
      ReadCall(p[..|p| - 1], fence);
    }
  }

  lemma FenceHolds(t: seq<Node>, start: nat, sent: nat, fence: nat, n: Node)
    requires Fenced(t, start, sent, fence) && MayJoin(t, start, sent, fence, n.call)
    ensures !Joins(Read(t[start..sent]), n)
  {
    ReadCall(t[start..sent], fence);
  }

  lemma FencedGrows(t: seq<Node>, start: nat, sent: nat, fence: nat, n: Node)
    requires Fenced(t, start, sent, fence) && MayJoin(t, start, sent, fence, n.call)
    ensures Fenced(t + [n], start, sent, fence)
    ensures t[start..sent] == (t + [n])[start..sent]
  {
    FenceHolds(t, start, sent, fence, n);
    var u := t + [n];
    assert u[..sent] == t[..sent] && u[start..sent] == t[start..sent];
    assert u[sent..] == t[sent..] + [n];
  }

  /** A change after the newest request that moves no node to another record or kind, and puts none back on the wire. */
  predicate SameShape(a: Node, b: Node) {
    b.call == a.call && b.ModelOutput() == a.ModelOutput() && (a.superseded ==> b.superseded)
  }

  lemma FencedChanges(t: seq<Node>, u: seq<Node>, start: nat, sent: nat, fence: nat)
    requires Fenced(t, start, sent, fence) && |u| == |t| && u[..sent] == t[..sent]
    requires forall i :: sent <= i < |t| ==> SameShape(t[i], u[i])
    ensures Fenced(u, start, sent, fence)
    ensures t[start..sent] == u[start..sent]
  {
    assert u[start..sent] == u[..sent][start..];
    assert t[start..sent] == t[..sent][start..];
    forall i | 0 <= i < |u[sent..]| && u[sent..][i].ModelOutput() && !u[sent..][i].superseded
      ensures !Joins(Read(u[start..sent]), u[sent..][i])
    {
      assert SameShape(t[sent + i], u[sent + i]);
      assert t[sent..][i] == t[sent + i];
    }
  }

  /** What the newest request carried begins whatever the next one carries. */
  lemma RequestsExtend(t: seq<Node>, start: nat, sent: nat, fence: nat)
    requires Fenced(t, start, sent, fence)
    ensures Flatten(t[start..sent]) <= Flatten(t[start..])
  {
    assert t[start..] == t[start..sent] + t[sent..];
    FlattenApart(t[start..sent], t[sent..]);
  }

  // --- the calls of the loop's own turns

  /** The calls still open among those not in foreign: what a host brought in is not the loop's to answer. */
  function OpenCalls(t: seq<Node>, foreign: set<Ref>): Option<set<Ref>> {
    Pending(Mark(t, foreign))
  }

  lemma {:induction false} MarkConcat(t: seq<Node>, q: seq<Node>, S: set<Ref>)
    ensures Mark(t + q, S) == Mark(t, S) + Mark(q, S)
  {
  }

  predicate RefsUnder(S: set<Ref>, n: nat) {
    forall r :: r in S ==> r < n
  }

  predicate RefsFrom(q: seq<Node>, n: nat) {
    forall i :: 0 <= i < |q| ==> q[i].ref >= n
  }

  predicate RefsBelow(t: seq<Node>, n: nat) {
    forall i :: 0 <= i < |t| ==> t[i].ref < n
  }

  lemma OwnGrow(t: seq<Node>, q: seq<Node>, foreign: set<Ref>, n: nat)
    requires RefsUnder(foreign, n) && RefsFrom(q, n)
    ensures Mark(t + q, foreign) == Mark(t, foreign) + q
  {
    assert Mark(q, foreign) == q;
    MarkConcat(t, q, foreign);
  }

  function NodeRefs(q: seq<Node>): (refs: seq<Ref>)
    ensures |refs| == |q|
    ensures forall i :: 0 <= i < |q| ==> refs[i] == q[i].ref
  {
    if q == [] then [] else NodeRefs(q[..|q| - 1]) + [q[|q| - 1].ref]
  }

  predicate AllProduced(q: seq<Node>) {
    forall i :: 0 <= i < |q| ==> Produced(q[i])
  }

  lemma ForeignOld(t: seq<Node>, q: seq<Node>, foreign: set<Ref>, n: nat)
    requires RefsFrom(q, n) && RefsBelow(t, n)
    ensures Mark(t, foreign + Elems(NodeRefs(q))) == Mark(t, foreign)
  {
    forall i | 0 <= i < |t| ensures t[i].ref !in Elems(NodeRefs(q)) {
      assert t[i].ref < n;
    }
  }

  predicate AllQuiet(q: seq<Node>) {
    forall i :: 0 <= i < |q| ==> Quiet(q[i])
  }

  lemma ForeignNew(q: seq<Node>, foreign: set<Ref>)
    requires AllProduced(q)
    ensures AllQuiet(Mark(q, foreign + Elems(NodeRefs(q))))
  {
    var refs := NodeRefs(q);
    var wider := foreign + Elems(refs);
    forall i | 0 <= i < |q| ensures Quiet(Mark(q, wider)[i]) {
      assert refs[i] in Elems(refs);
    }
  }

  /** What a host brings in opens nothing. */
  lemma ForeignKeeps(t: seq<Node>, q: seq<Node>, foreign: set<Ref>, n: nat)
    requires RefsFrom(q, n) && RefsBelow(t, n) && AllProduced(q)
    ensures OpenCalls(t + q, foreign + Elems(NodeRefs(q))) == OpenCalls(t, foreign)
  {
    hide Mark, NodeRefs, RefsFrom, RefsBelow, AllProduced, Pending, Quiet;
    var wider := foreign + Elems(NodeRefs(q));
    MarkConcat(t, q, wider);
    ForeignOld(t, q, foreign, n);
    ForeignNew(q, foreign);
    QuietKeeps(Mark(t, foreign), Mark(q, wider));
  }

  /** A call's own nodes open the calls among them. */
  lemma OwnOpens(t: seq<Node>, q: seq<Node>, foreign: set<Ref>, n: nat)
    requires RefsUnder(foreign, n) && RefsFrom(q, n) && AllProduced(q) && OpenCalls(t, foreign).Some?
    ensures OpenCalls(t + q, foreign) == Some(OpenCalls(t, foreign).value + Elems(LiveRefs(q)))
  {
    OwnGrow(t, q, foreign, n);
    ProducedOpens(Mark(t, foreign), q);
  }

  lemma OwnAnswer(t: seq<Node>, r: Node, foreign: set<Ref>, n: nat)
    requires RefsUnder(foreign, n) && r.ref >= n && r.LinkedResult()
    ensures OpenCalls(t + [r], foreign) == Follow(OpenCalls(t, foreign), r)
  {
    OwnGrow(t, [r], foreign, n);
    PendingSnoc(Mark(t, foreign), r);
  }

  lemma OwnCompaction(t: seq<Node>, c: Node, foreign: set<Ref>, n: nat)
    requires RefsUnder(foreign, n) && c.ref >= n && c.body.CompactionBody?
    requires OpenCalls(t, foreign) == Some({})
    ensures OpenCalls(t + [c], foreign) == Some({})
  {
    OwnGrow(t, [c], foreign, n);
    PendingSnoc(Mark(t, foreign), c);
  }

  lemma MarkSwap(t: seq<Node>, S: set<Ref>, T: set<Ref>)
    ensures Mark(Mark(t, S), T) == Mark(Mark(t, T), S)
  {
  }

  lemma MarkInOrder(t: seq<Node>, S: set<Ref>)
    requires InOrder(t)
    ensures InOrder(Mark(t, S))
  {
  }

  /** Superseding open calls of the loop closes them. */
  lemma OwnSupersede(t: seq<Node>, S: set<Ref>, foreign: set<Ref>)
    requires InOrder(t) && OpenCalls(t, foreign).Some? && S <= OpenCalls(t, foreign).value
    ensures OpenCalls(Mark(t, S), foreign) == Some(OpenCalls(t, foreign).value - S)
  {
    hide Mark, Pending, InOrder;
    MarkSwap(t, S, foreign);
    MarkInOrder(t, foreign);
    MarkClosesAll(Mark(t, foreign), S);
  }

  /** What it means for r to be open: it is a live call of the loop on the path, and nothing answers it. */
  lemma OpenMeans(t: seq<Node>, foreign: set<Ref>, r: Ref)
    requires InOrder(t) && OpenCalls(t, foreign).Some?
    ensures r in OpenCalls(t, foreign).value <==>
              r !in foreign && CallBefore(t, |t|, r) && !AnsweredIn(t, r)
  {
    hide Pending, InOrder;
    var u := Mark(t, foreign);
    MarkInOrder(t, foreign);
    assert u[..|u|] == u;
    PendingIsOpen(u, |u|);
    OwnCallBefore(t, foreign, r);
    OwnAnsweredIn(t, foreign, r);
  }

  lemma OwnCallBefore(t: seq<Node>, foreign: set<Ref>, r: Ref)
    ensures CallBefore(Mark(t, foreign), |t|, r) <==> r !in foreign && CallBefore(t, |t|, r)
  {
    var u := Mark(t, foreign);
    if CallBefore(u, |t|, r) {
      var i :| 0 <= i < |t| && u[i].LiveCall() && u[i].ref == r;
      assert t[i].LiveCall() && t[i].ref == r;
    }
    if r !in foreign && CallBefore(t, |t|, r) {
      var i :| 0 <= i < |t| && t[i].LiveCall() && t[i].ref == r;
      assert u[i].LiveCall() && u[i].ref == r;
    }
  }

  lemma OwnAnsweredIn(t: seq<Node>, foreign: set<Ref>, r: Ref)
    ensures AnsweredIn(Mark(t, foreign), r) <==> AnsweredIn(t, r)
  {
    var u := Mark(t, foreign);
    assert forall i :: 0 <= i < |t| ==> (Answers(u[i], r) <==> Answers(t[i], r));
  }

  /** Every call of the loop's own turns that is still on the wire has exactly one answer, after it on the path and with
      no compaction between the two. */
  ghost predicate AllAnswered(t: seq<Node>, foreign: set<Ref>) {
    forall i :: 0 <= i < |t| && t[i].LiveCall() && t[i].ref !in foreign ==> HasAnswer(t, i)
  }

  lemma SettledAnswersAll(t: seq<Node>, foreign: set<Ref>)
    requires InOrder(t) && OpenCalls(t, foreign) == Some({})
    ensures AllAnswered(t, foreign)
  {
    hide Pending;
    var u := Mark(t, foreign);
    SettledMeansAnsweredOnce(u);
    forall i | 0 <= i < |t| && t[i].LiveCall() && t[i].ref !in foreign ensures HasAnswer(t, i) {
      assert u[i].LiveCall() && HasAnswer(u, i);
      AnswerUnmarked(t, foreign, i);
    }
  }

  lemma AnswerUnmarked(t: seq<Node>, foreign: set<Ref>, i: nat)
    requires i < |t| && HasAnswer(Mark(t, foreign), i)
    ensures HasAnswer(t, i)
  {
    var u := Mark(t, foreign);
    var j: nat :| AnsweredAt(u, i, j);
    assert forall k :: 0 <= k < |t| ==> (Answers(u[k], u[i].ref) <==> Answers(t[k], t[i].ref));
    assert AnsweredAt(t, i, j);
  }

  // --- values stay

  /** Everything that was in the tree still is, as it was, but for calls taken off the wire. */
  predicate Later(a: seq<Node>, b: seq<Node>) {
    |a| <= |b| && forall r :: 0 <= r < |a| ==> b[r] == a[r] || b[r] == a[r].(superseded := true)
  }

  // --- the whole record

  /** A flat message that joined the path at position `at`, its record numbered rec. */
  datatype Post = Post(m: Message, rec: nat, at: nat)

  /** A model call whose parts joined the path at position `at`, its record numbered rec. */
  datatype Stream = Stream(bodies: seq<Body>, rec: nat, at: nat)

  /** What there is to say of a conversation: every node, the path to the leaf, where the window starts, how far the
      newest request reached, the records up to it, what hosts brought in, the flat messages that is made of, and the
      model calls. */
  datatype Ledger = Ledger(
    nodes: seq<Node>, trail: seq<Node>, start: nat, sent: nat, fence: nat, records: nat,
    foreign: set<Ref>, posts: seq<Post>, streams: seq<Stream>, dialect: Dialect)
  {
    /** What a request carries now. */
    function Window(): seq<Message>
      requires start <= |trail|
    {
      Flatten(trail[start..])
    }

    /** The nodes the newest request carried. */
    function Carried(): seq<Node>
      requires start <= sent <= |trail|
    {
      trail[start..sent]
    }

    /** What the newest request carried. */
    function Sent(): seq<Message>
      requires start <= sent <= |trail|
    {
      Flatten(Carried())
    }

    function Open(): Option<set<Ref>> {
      OpenCalls(trail, foreign)
    }

    /** New nodes under the leaf. */
    function Grown(ns: seq<Node>, records: nat): Ledger {
      this.(nodes := nodes + ns, trail := trail + ns, records := records)
    }

    /** A flat message joined as ns. */
    function Told(m: Message, ns: seq<Node>): Ledger {
      Grown(ns, records + 1).(foreign := foreign + Elems(NodeRefs(ns)), posts := posts + [Post(m, records, |trail|)])
    }

    /** A model call joined as ns. */
    function Streamed(ns: seq<Node>, bodies: seq<Body>): Ledger {
      Grown(ns, records + 1).(streams := streams + [Stream(bodies, records, |trail|)])
    }

    /** The calls of S left the wire. */
    function Without(S: set<Ref>): Ledger {
      this.(nodes := Mark(nodes, S), trail := Mark(trail, S))
    }

    /** A summary joined, and the window starts there. */
    function Compacted(c: Node): Ledger {
      Grown([c], records).(start := |trail|, sent := |trail|, fence := records)
    }

    /** A request went out with the window as it is. */
    function Asked(): Ledger {
      this.(sent := |trail|, fence := records)
    }
  }

  /** b continues a with the newest request the same. */
  predicate Onward(a: Ledger, b: Ledger) {
    && a.start <= a.sent <= |a.trail| && b.start <= b.sent <= |b.trail|
    && b.Carried() == a.Carried() && b.fence == a.fence && a.records <= b.records && a.streams <= b.streams
  }

  predicate PostedAt(p: Post, t: seq<Node>, foreign: set<Ref>, d: Dialect) {
    var ns := NodesOf(p.m, d, p.rec);
    && p.at + |ns| <= |t| && AllAlike(t[p.at..p.at + |ns|], ns)
    && forall i :: p.at <= i < p.at + |ns| ==> t[i].ref in foreign
  }

  /** Each flat message stands on the path, whole and once, in the order they came. */
  predicate AllPosted(posts: seq<Post>, t: seq<Node>, foreign: set<Ref>, d: Dialect) {
    && (forall k :: 0 <= k < |posts| ==> PostedAt(posts[k], t, foreign, d))
    && (forall j, k :: 0 <= j < k < |posts| ==> posts[j].at + |NodesOf(posts[j].m, d, posts[j].rec)| <= posts[k].at)
  }

  /** Each node of the path lives where its ref says. */
  predicate OnArena(nodes: seq<Node>, t: seq<Node>) {
    forall i :: 0 <= i < |t| ==> t[i].ref < |nodes| && nodes[t[i].ref] == t[i]
  }

  /** The parts of a model call stand on the path under its record, and none of them came from a host. */
  predicate StreamedAt(x: Stream, t: seq<Node>, foreign: set<Ref>) {
    && x.at + |x.bodies| <= |t|
    && forall i :: x.at <= i < x.at + |x.bodies| ==>
         t[i].body == x.bodies[i - x.at] && t[i].call == Some(x.rec) && t[i].ref !in foreign
  }

  predicate AllStreamed(streams: seq<Stream>, t: seq<Node>, foreign: set<Ref>) {
    forall k :: 0 <= k < |streams| ==> StreamedAt(streams[k], t, foreign)
  }

  predicate OfPost(p: Post, t: seq<Node>, d: Dialect, r: Ref) {
    exists i :: p.at <= i < p.at + |NodesOf(p.m, d, p.rec)| && i < |t| && t[i].ref == r
  }

  /** What came from a host is the nodes of the flat messages, and nothing else. */
  predicate OnlyPosts(posts: seq<Post>, t: seq<Node>, foreign: set<Ref>, d: Dialect) {
    forall r :: r in foreign ==> exists k :: 0 <= k < |posts| && OfPost(posts[k], t, d, r)
  }

  /** Every record is that of one flat message or of one model call. */
  predicate RecordsSplit(posts: seq<Post>, streams: seq<Stream>, records: nat) {
    && records == |posts| + |streams|
    && (forall k :: 0 <= k < |posts| ==> posts[k].rec < records)
    && (forall k :: 0 <= k < |streams| ==> streams[k].rec < records)
    && (forall j, k :: 0 <= j < k < |posts| ==> posts[j].rec != posts[k].rec)
    && (forall j, k :: 0 <= j < k < |streams| ==> streams[j].rec != streams[k].rec)
    && (forall j, k :: 0 <= j < |posts| && 0 <= k < |streams| ==> posts[j].rec != streams[k].rec)
  }

  /** The path is accounted for: hosts' messages, model calls, and what the loop adds to those. */
  predicate Accounted(v: Ledger) {
    && AllStreamed(v.streams, v.trail, v.foreign)
    && OnlyPosts(v.posts, v.trail, v.foreign, v.dialect)
    && RecordsSplit(v.posts, v.streams, v.records)
    && AtSummary(v.trail, v.start)
  }

  /** The window is the whole path, or starts at a summary. */
  predicate AtSummary(t: seq<Node>, start: nat) {
    start == 0 || (start < |t| && t[start].body.CompactionBody?)
  }

  predicate Sound(v: Ledger) {
    Framed(v) && Accounted(v)
  }

  predicate Framed(v: Ledger) {
    && InOrder(v.trail) && OnArena(v.nodes, v.trail) && RefsBelow(v.trail, |v.nodes|) && RefsUnder(v.foreign, |v.nodes|)
    && Fenced(v.trail, v.start, v.sent, v.fence) && v.fence <= v.records
    && CallsUnder(v.trail, v.records)
    && AllPosted(v.posts, v.trail, v.foreign, v.dialect)
  }

  lemma SoundAtFirst(d: Dialect)
    ensures Sound(Ledger([], [], 0, 0, 0, 0, {}, [], [], d))
  {
  }

  // --- what is accounted for

  lemma StreamsStay(streams: seq<Stream>, t: seq<Node>, ns: seq<Node>, foreign: set<Ref>, wider: set<Ref>)
    requires AllStreamed(streams, t, foreign)
    requires forall i :: 0 <= i < |t| ==> t[i].ref !in foreign ==> t[i].ref !in wider
    ensures AllStreamed(streams, t + ns, wider)
  {
    forall k | 0 <= k < |streams| ensures StreamedAt(streams[k], t + ns, wider) {
      assert StreamedAt(streams[k], t, foreign);
    }
  }

  lemma StreamsUnmarked(streams: seq<Stream>, t: seq<Node>, S: set<Ref>, foreign: set<Ref>)
    requires AllStreamed(streams, t, foreign)
    ensures AllStreamed(streams, Mark(t, S), foreign)
  {
    forall k | 0 <= k < |streams| ensures StreamedAt(streams[k], Mark(t, S), foreign) {
      assert StreamedAt(streams[k], t, foreign);
    }
  }

  predicate SameRefs(t: seq<Node>, u: seq<Node>) {
    |t| <= |u| && forall i :: 0 <= i < |t| ==> u[i].ref == t[i].ref
  }

  lemma OnlyPostsStay(posts: seq<Post>, t: seq<Node>, u: seq<Node>, foreign: set<Ref>, d: Dialect)
    requires OnlyPosts(posts, t, foreign, d) && SameRefs(t, u)
    ensures OnlyPosts(posts, u, foreign, d)
  {
    hide NodesOf;
    forall r | r in foreign ensures exists k :: 0 <= k < |posts| && OfPost(posts[k], u, d, r) {
      var k :| 0 <= k < |posts| && OfPost(posts[k], t, d, r);
      var i :| posts[k].at <= i < posts[k].at + |NodesOf(posts[k].m, d, posts[k].rec)| && i < |t| && t[i].ref == r;
      assert u[i].ref == r;
      assert OfPost(posts[k], u, d, r);
    }
  }

  lemma OnlyPostsTold(posts: seq<Post>, t: seq<Node>, ns: seq<Node>, foreign: set<Ref>, d: Dialect, p: Post)
    requires OnlyPosts(posts, t, foreign, d) && p.at == |t| && |ns| == |NodesOf(p.m, d, p.rec)|
    ensures OnlyPosts(posts + [p], t + ns, foreign + Elems(NodeRefs(ns)), d)
  {
    hide NodesOf, OfPost, NodeRefs;
    OnlyPostsStay(posts, t, t + ns, foreign, d);
    var more := posts + [p];
    forall r | r in foreign + Elems(NodeRefs(ns)) ensures exists k :: 0 <= k < |more| && OfPost(more[k], t + ns, d, r) {
      if r in foreign {
        var k :| 0 <= k < |posts| && OfPost(posts[k], t + ns, d, r);
        assert more[k] == posts[k];
      } else {
        OwnPost(t, ns, d, p, r);
        assert more[|posts|] == p;
      }
    }
  }

  lemma {:induction false} OwnPost(t: seq<Node>, ns: seq<Node>, d: Dialect, p: Post, r: Ref)
    requires p.at == |t| && |ns| == |NodesOf(p.m, d, p.rec)| && r in Elems(NodeRefs(ns))
    ensures OfPost(p, t + ns, d, r)
  {
    hide NodesOf, NodeRefs;
    var i :| 0 <= i < |ns| && NodeRefs(ns)[i] == r;
    var u, k := t + ns, |t| + i;
    assert u[k] == ns[i];
    assert p.at <= k < p.at + |NodesOf(p.m, d, p.rec)| && k < |u| && u[k].ref == r;
  }

  lemma AccountedGrown(v: Ledger, ns: seq<Node>)
    requires Accounted(v)
    ensures Accounted(v.Grown(ns, v.records))
  {
    hide StreamedAt, RecordsSplit, AllStreamed, OnlyPosts;
    StreamsStay(v.streams, v.trail, ns, v.foreign, v.foreign);
    OnlyPostsStay(v.posts, v.trail, v.trail + ns, v.foreign, v.dialect);
  }

  lemma RecordsTold(v: Ledger, m: Message, ns: seq<Node>)
    requires RecordsSplit(v.posts, v.streams, v.records)
    ensures RecordsSplit(v.Told(m, ns).posts, v.streams, v.records + 1)
  {
  }

  lemma RecordsStreamed(v: Ledger, ns: seq<Node>, bodies: seq<Body>)
    requires RecordsSplit(v.posts, v.streams, v.records)
    ensures RecordsSplit(v.posts, v.Streamed(ns, bodies).streams, v.records + 1)
  {
  }

  lemma AccountedTold(v: Ledger, m: Message, ns: seq<Node>)
    requires Framed(v) && Accounted(v) && RefsRun(ns, |v.nodes|) && AllAlike(ns, NodesOf(m, v.dialect, v.records))
    ensures Accounted(v.Told(m, ns))
  {
    hide AllStreamed, OnlyPosts, RecordsSplit, NodesOf, Fenced, AllPosted, OnArena, InOrder;
    var wider := v.foreign + Elems(NodeRefs(ns));
    forall i | 0 <= i < |v.trail| && v.trail[i].ref !in v.foreign ensures v.trail[i].ref !in wider {
      assert v.trail[i].ref < |v.nodes|;
    }
    StreamsStay(v.streams, v.trail, ns, v.foreign, wider);
    OnlyPostsTold(v.posts, v.trail, ns, v.foreign, v.dialect, Post(m, v.records, |v.trail|));
    RecordsTold(v, m, ns);
  }

  lemma StreamJoins(t: seq<Node>, ns: seq<Node>, foreign: set<Ref>, x: Stream)
    requires x.at == |t| && |x.bodies| == |ns|
    requires forall i :: 0 <= i < |ns| ==> ns[i].body == x.bodies[i] && ns[i].call == Some(x.rec) && ns[i].ref !in foreign
    ensures StreamedAt(x, t + ns, foreign)
  {
  }

  lemma AccountedStreamed(v: Ledger, ns: seq<Node>, bodies: seq<Body>)
    requires Accounted(v) && RefsUnder(v.foreign, |v.nodes|) && RefsRun(ns, |v.nodes|) && |bodies| == |ns|
    requires forall i :: 0 <= i < |ns| ==> ns[i].body == bodies[i] && ns[i].call == Some(v.records)
    ensures Accounted(v.Streamed(ns, bodies))
  {
    hide StreamedAt, OnlyPosts, RecordsSplit;
    StreamsStay(v.streams, v.trail, ns, v.foreign, v.foreign);
    OnlyPostsStay(v.posts, v.trail, v.trail + ns, v.foreign, v.dialect);
    RecordsStreamed(v, ns, bodies);
    StreamJoins(v.trail, ns, v.foreign, Stream(bodies, v.records, |v.trail|));
  }

  lemma AccountedWithout(v: Ledger, S: set<Ref>)
    requires Accounted(v)
    ensures Accounted(v.Without(S))
  {
    hide StreamedAt, RecordsSplit, AllStreamed, OnlyPosts;
    StreamsUnmarked(v.streams, v.trail, S, v.foreign);
    OnlyPostsStay(v.posts, v.trail, Mark(v.trail, S), v.foreign, v.dialect);
  }

  // --- posts

  lemma PostStays(p: Post, t: seq<Node>, u: seq<Node>, foreign: set<Ref>, wider: set<Ref>, d: Dialect)
    requires PostedAt(p, t, foreign, d) && t <= u && foreign <= wider
    ensures PostedAt(p, u, wider, d)
  {
    hide NodesOf, Alike;
    var n := |NodesOf(p.m, d, p.rec)|;
    assert t[p.at..p.at + n] == u[p.at..p.at + n];
  }

  lemma PostsStay(posts: seq<Post>, t: seq<Node>, u: seq<Node>, foreign: set<Ref>, wider: set<Ref>, d: Dialect)
    requires AllPosted(posts, t, foreign, d) && t <= u && foreign <= wider
    ensures AllPosted(posts, u, wider, d)
  {
    hide PostedAt, NodesOf;
    forall k | 0 <= k < |posts| ensures PostedAt(posts[k], u, wider, d) {
      PostStays(posts[k], t, u, foreign, wider, d);
    }
  }

  lemma PostUnmarked(p: Post, t: seq<Node>, S: set<Ref>, foreign: set<Ref>, d: Dialect)
    requires PostedAt(p, t, foreign, d) && S !! foreign
    ensures PostedAt(p, Mark(t, S), foreign, d)
  {
    hide NodesOf, Alike;
    var u, n := Mark(t, S), |NodesOf(p.m, d, p.rec)|;
    assert t[p.at..p.at + n] == u[p.at..p.at + n];
  }

  lemma PostsUnmarked(posts: seq<Post>, t: seq<Node>, S: set<Ref>, foreign: set<Ref>, d: Dialect)
    requires AllPosted(posts, t, foreign, d) && S !! foreign
    ensures AllPosted(posts, Mark(t, S), foreign, d)
  {
    hide PostedAt, NodesOf, Mark;
    forall k | 0 <= k < |posts| ensures PostedAt(posts[k], Mark(t, S), foreign, d) {
      PostUnmarked(posts[k], t, S, foreign, d);
    }
  }

  lemma PostJoins(p: Post, t: seq<Node>, ns: seq<Node>, foreign: set<Ref>, d: Dialect)
    requires p.at == |t| && AllAlike(ns, NodesOf(p.m, d, p.rec))
    ensures PostedAt(p, t + ns, foreign + Elems(NodeRefs(ns)), d)
  {
    hide NodesOf, Alike;
    assert (t + ns)[|t|..|t| + |ns|] == ns;
    forall i | |t| <= i < |t| + |ns| ensures (t + ns)[i].ref in Elems(NodeRefs(ns)) {
      assert NodeRefs(ns)[i - |t|] == (t + ns)[i].ref;
    }
  }

  lemma PostsTold(v: Ledger, m: Message, ns: seq<Node>)
    requires AllPosted(v.posts, v.trail, v.foreign, v.dialect) && AllAlike(ns, NodesOf(m, v.dialect, v.records))
    ensures AllPosted(v.Told(m, ns).posts, v.trail + ns, v.Told(m, ns).foreign, v.dialect)
  {
    hide PostedAt, NodesOf, Alike, NodeRefs;
    var wider := v.foreign + Elems(NodeRefs(ns));
    PostsStay(v.posts, v.trail, v.trail + ns, v.foreign, wider, v.dialect);
    PostJoins(Post(m, v.records, |v.trail|), v.trail, ns, v.foreign, v.dialect);
    forall k | 0 <= k < |v.posts| ensures v.posts[k].at + |NodesOf(v.posts[k].m, v.dialect, v.posts[k].rec)| <= |v.trail| {
      PostWithin(v.posts[k], v.trail, v.foreign, v.dialect);
    }
  }

  lemma PostWithin(p: Post, t: seq<Node>, foreign: set<Ref>, d: Dialect)
    requires PostedAt(p, t, foreign, d)
    ensures p.at + |NodesOf(p.m, d, p.rec)| <= |t|
  {
  }

  // --- what each change keeps

  /** The nodes at refs n, n + 1, ... */
  predicate RefsRun(ns: seq<Node>, n: nat) {
    forall i :: 0 <= i < |ns| ==> ns[i].ref == n + i
  }

  lemma ArenaGrows(nodes: seq<Node>, t: seq<Node>, ns: seq<Node>)
    requires InOrder(t) && OnArena(nodes, t) && RefsRun(ns, |nodes|)
    ensures InOrder(t + ns) && OnArena(nodes + ns, t + ns)
  {
  }

  lemma ArenaMarked(nodes: seq<Node>, t: seq<Node>, S: set<Ref>)
    requires InOrder(t) && OnArena(nodes, t)
    ensures InOrder(Mark(t, S)) && OnArena(Mark(nodes, S), Mark(t, S))
  {
  }

  /** Where and under which records nodes may join: after every node there is, continuing no turn already sent. */
  predicate MayGrow(v: Ledger, ns: seq<Node>, records: nat) {
    && v.records <= records && RefsRun(ns, |v.nodes|)
    && (forall i :: 0 <= i < |ns| ==> MayJoin(v.trail, v.start, v.sent, v.fence, ns[i].call))
    && CallsUnder(ns, records)
  }

  lemma {:induction false} FencedGrowsBy(t: seq<Node>, start: nat, sent: nat, fence: nat, ns: seq<Node>)
    requires Fenced(t, start, sent, fence)
    requires forall i :: 0 <= i < |ns| ==> MayJoin(t, start, sent, fence, ns[i].call)
    ensures Fenced(t + ns, start, sent, fence)
    ensures (t + ns)[start..sent] == t[start..sent]
  {
    if ns == [] {
      assert t + ns == t;
    } else {
      hide Fenced, Apart;
      var init, n := ns[..|ns| - 1], ns[|ns| - 1];
      FencedGrowsBy(t, start, sent, fence, init);
      assert t + ns == (t + init) + [n];
      assert MayJoin(t, start, sent, fence, n.call);
      FencedBounds(t, start, sent, fence);
      FencedGrows(t + init, start, sent, fence, n);
    }
  }

  lemma FencedBounds(t: seq<Node>, start: nat, sent: nat, fence: nat)
    requires Fenced(t, start, sent, fence)
    ensures start <= sent <= |t|
  {
  }

  lemma FramedGrown(v: Ledger, ns: seq<Node>, records: nat)
    requires Framed(v) && MayGrow(v, ns, records)
    ensures Framed(v.Grown(ns, records))
    ensures v.Grown(ns, records).Carried() == v.Carried()
  {
    hide Fenced, AllPosted, MayJoin, OnArena, InOrder;
    ArenaGrows(v.nodes, v.trail, ns);
    FencedBounds(v.trail, v.start, v.sent, v.fence);
    FencedGrowsBy(v.trail, v.start, v.sent, v.fence, ns);
    PostsStay(v.posts, v.trail, v.trail + ns, v.foreign, v.foreign, v.dialect);
  }

  lemma SoundGrown(v: Ledger, ns: seq<Node>)
    requires Sound(v) && MayGrow(v, ns, v.records)
    ensures Sound(v.Grown(ns, v.records))
    ensures v.Grown(ns, v.records).Carried() == v.Carried()
  {
    hide Framed, Accounted;
    FramedGrown(v, ns, v.records);
    AccountedGrown(v, ns);
  }

  /** A model call's parts join: every invariant holds again, and the newest request reads as before. */
  lemma SoundStreamed(v: Ledger, ns: seq<Node>, bodies: seq<Body>)
    requires Sound(v) && MayGrow(v, ns, v.records + 1) && |bodies| == |ns|
    requires forall i :: 0 <= i < |ns| ==> ns[i].body == bodies[i] && ns[i].call == Some(v.records)
    ensures Sound(v.Streamed(ns, bodies))
    ensures v.Streamed(ns, bodies).Carried() == v.Carried()
  {
    hide Accounted, Fenced, AllPosted, OnArena, InOrder, MayJoin;
    FramedGrown(v, ns, v.records + 1);
    AccountedStreamed(v, ns, bodies);
  }

  lemma FreshMayJoin(v: Ledger, ns: seq<Node>)
    requires v.fence <= v.records
    requires forall i :: 0 <= i < |ns| ==> ns[i].call.None? || ns[i].call == Some(v.records)
    ensures forall i :: 0 <= i < |ns| ==> MayJoin(v.trail, v.start, v.sent, v.fence, ns[i].call)
  {
  }

  lemma SoundTold(v: Ledger, m: Message, ns: seq<Node>)
    requires Sound(v) && MayGrow(v, ns, v.records + 1) && AllAlike(ns, NodesOf(m, v.dialect, v.records))
    ensures Sound(v.Told(m, ns))
    ensures v.Told(m, ns).Carried() == v.Carried()
  {
    hide Fenced, AllPosted, MayJoin, NodesOf, Alike, PostedAt, OnArena, InOrder, Accounted;
    FramedGrown(v, ns, v.records + 1);
    AccountedTold(v, m, ns);
    PostsTold(v, m, ns);
    assert RefsUnder(Elems(NodeRefs(ns)), |v.nodes| + |ns|);
  }

  /** None of S was in the newest request, and none came from a host. */
  predicate MayMark(v: Ledger, S: set<Ref>) {
    S !! v.foreign && forall i :: 0 <= i < v.sent && i < |v.trail| ==> v.trail[i].ref !in S
  }

  lemma SoundWithout(v: Ledger, S: set<Ref>)
    requires Sound(v) && MayMark(v, S)
    ensures Sound(v.Without(S))
    ensures v.Without(S).Carried() == v.Carried()
  {
    hide AllPosted, OnArena, InOrder, Accounted;
    AccountedWithout(v, S);
    ArenaMarked(v.nodes, v.trail, S);
    FencedBounds(v.trail, v.start, v.sent, v.fence);
    assert Mark(v.trail, S)[..v.sent] == v.trail[..v.sent];
    FencedChanges(v.trail, Mark(v.trail, S), v.start, v.sent, v.fence);
    PostsUnmarked(v.posts, v.trail, S, v.foreign, v.dialect);
  }

  lemma FencedAtEnd(t: seq<Node>, start: nat, sent: nat, records: nat)
    requires start <= sent == |t| && CallsUnder(t, records)
    ensures Fenced(t, start, sent, records)
  {
    assert t[..sent] == t;
  }

  lemma SoundAsked(v: Ledger)
    requires Sound(v)
    ensures Sound(v.Asked()) && v.Asked().Sent() == v.Window()
  {
    hide AllPosted, OnArena, InOrder, OnlyPosts, AllStreamed, RecordsSplit;
    FencedAtEnd(v.trail, v.start, |v.trail|, v.records);
    assert v.trail[v.start..|v.trail|] == v.trail[v.start..];
  }

  lemma SoundCompacted(v: Ledger, c: Node)
    requires Sound(v) && c.ref == |v.nodes| && c.call.None? && c.body.CompactionBody?
    ensures Sound(v.Compacted(c))
  {
    hide AllPosted, Fenced, OnArena, InOrder, Accounted;
    AccountedGrown(v, [c]);
    AccountedSame(v.Grown([c], v.records), v.Compacted(c));
    ArenaGrows(v.nodes, v.trail, [c]);
    var t := v.trail + [c];
    PostsStay(v.posts, v.trail, t, v.foreign, v.foreign, v.dialect);
    assert t[..|v.trail|] == v.trail;
    CompactionFences(v.trail, c, v.records);
  }

  lemma AccountedSame(v: Ledger, u: Ledger)
    requires Accounted(v) && u.trail == v.trail && u.foreign == v.foreign && u.posts == v.posts && u.streams == v.streams
    requires u.records == v.records && u.dialect == v.dialect && AtSummary(u.trail, u.start)
    ensures Accounted(u)
  {
  }

  lemma CompactionFences(t: seq<Node>, c: Node, records: nat)
    requires CallsUnder(t, records)
    ensures Fenced(t + [c], |t|, |t|, records)
  {
    assert (t + [c])[..|t|] == t;
    assert (t + [c])[|t|..|t|] == [];
  }

  /** Whatever is added, the window begins with what the newest request carried. */
  lemma WindowExtendsSent(v: Ledger)
    requires Sound(v)
    ensures v.start <= v.sent <= |v.trail| && v.Sent() <= v.Window()
  {
    FencedBounds(v.trail, v.start, v.sent, v.fence);
    RequestsExtend(v.trail, v.start, v.sent, v.fence);
  }

  lemma OpenTold(v: Ledger, m: Message, ns: seq<Node>)
    requires Sound(v) && MayGrow(v, ns, v.records + 1) && AllProduced(ns)
    ensures v.Told(m, ns).Open() == v.Open()
  {
    ForeignKeeps(v.trail, ns, v.foreign, |v.nodes|);
  }
}
