/** What a request says of tool calls: every call in it has its one result message (core/convert.go,
    internal/loop/session.go). */
module Prompts {
  import opened Wrappers
  import opened Lists
  import opened Messages
  import opened Nodes
  import opened Convert
  import opened Protocol
  import opened Ledgers
  import opened Sessions
  import opened RunTurns

  // --- what is sent

  function CallsOfMessage(m: Message): seq<ToolCall> {
    m.toolCalls
  }

  function ResultOf(m: Message): seq<string> {
    if m.role.Tool? then [m.toolCallId] else []
  }

  /** The calls that flat messages make, and the ids that their tool messages answer, in order. */
  function SentCalls(ms: seq<Message>): seq<ToolCall> {
    FlatMap(CallsOfMessage, ms)
  }

  function SentResults(ms: seq<Message>): seq<string> {
    FlatMap(ResultOf, ms)
  }

  function CallHere(n: Node): seq<ToolCall> {
    if n.LiveCall() then CallsHere(n) else []
  }

  function ResultHere(n: Node): seq<string> {
    if !n.superseded && n.body.ToolResultBody? then [CallIdOf(n.body.answers)] else []
  }

  lemma SentSnoc(ms: seq<Message>, m: Message)
    ensures SentCalls(ms + [m]) == SentCalls(ms) + m.toolCalls
    ensures SentResults(ms + [m]) == SentResults(ms) + ResultOf(m)
  {
    FlatMapSnoc(CallsOfMessage, ms, m);
    FlatMapSnoc(ResultOf, ms, m);
  }

  lemma {:induction false} ContentCallsNothing(content: seq<Content>)
    ensures FlatMap(ToolCallOf, FlatMap(ContentPart, content)) == []
  {
    if content != [] {
      var init, c := content[..|content| - 1], content[|content| - 1];
      ContentCallsNothing(init);
      FlatMapConcat(ToolCallOf, FlatMap(ContentPart, init), ContentPart(c));
      FlatMapOne(ToolCallOf, ContentPart(c)[0]);
      assert ContentPart(c) == [ContentPart(c)[0]];
    } else {
      FlatMapNone(ContentPart);
      FlatMapNone(ToolCallOf);
    }
  }

  lemma CarriedCalls(role: Role, id: string, kind: string, parts: seq<Part>)
    requires FlatMap(ToolCallOf, parts) == []
    ensures Carried(role, id, kind, parts).toolCalls == [] && Carried(role, id, kind, parts).role == role
  {
  }

  lemma AloneSent(n: Node)
    requires !n.superseded
    ensures |Alone(n)| <= 1 && (Alone(n) != [] ==> Alone(n)[0].toolCalls == [] && ResultOf(Alone(n)[0]) == ResultHere(n))
    ensures !n.ModelOutput() && !n.body.ExtensionBody? ==> |Alone(n)| == 1
  {
    hide FlatMap, Carried;
    match n.body
    case UserBody(content) =>
      ContentCallsNothing(content);
      CarriedCalls(User, n.HostId(), n.kind, FlatMap(ContentPart, content));
    case SystemBody(content) =>
      ContentCallsNothing(content);
      CarriedCalls(User, n.HostId(), n.kind, FlatMap(ContentPart, content));
    case ToolResultBody(_, content, _, _) =>
      ContentCallsNothing(content);
      CarriedCalls(Tool, n.HostId(), n.kind, FlatMap(ContentPart, content));
    case _ =>
  }

  lemma TurnSent(group: seq<Node>, id: string)
    ensures Turn(group).(id := id).toolCalls == CallsOf(group) && ResultOf(Turn(group).(id := id)) == []
  {
    TurnCalls(group);
  }

  lemma FlushSent(r: Reading)
    ensures SentCalls(Flush(r)) == SentCalls(r.out) + CallsOf(r.group)
    ensures SentResults(Flush(r)) == SentResults(r.out)
  {
    hide Turn, CallsOf, SentCalls, SentResults, ResultOf;
    if r.group == [] {
      CallsOfSnoc([], Fresh("", "", None, ExtensionBody));
      assert SentCalls(r.out) + [] == SentCalls(r.out);
    } else {
      TurnSent(r.group, r.group[0].HostId());
      SentSnoc(r.out, Turn(r.group).(id := r.group[0].HostId()));
      assert SentResults(r.out) + [] == SentResults(r.out);
    }
  }

  lemma StepSent(r: Reading, n: Node)
    ensures SentCalls(Flush(ReadNode(r, n))) == SentCalls(Flush(r)) + CallHere(n)
    ensures SentResults(Flush(ReadNode(r, n))) == SentResults(Flush(r)) + ResultHere(n)
  {
    hide Flush, CallsOf, CallsHere, SentCalls, SentResults, ResultOf, Alone;
    var q := ReadNode(r, n);
    FlushSent(r);
    FlushSent(q);
    if n.superseded || n.body.ExtensionBody? {
      Adds(SentCalls(Flush(r)), SentResults(Flush(r)));
    } else if n.ModelOutput() {
      OutputSent(r, n, q);
    } else {
      AloneSent(n);
      SentSnoc(Flush(r), Alone(n)[0]);
      assert Alone(n) == [Alone(n)[0]];
      CallsOfSnoc([], n);
      Adds(SentCalls(Flush(r)), SentResults(Flush(r)));
      Adds(SentCalls(Flush(r) + Alone(n)), SentResults(Flush(r)));
    }
  }

  lemma Adds(calls: seq<ToolCall>, ids: seq<string>)
    ensures calls + [] == calls && ids + [] == ids
  {
  }

  lemma OutputSent(r: Reading, n: Node, q: Reading)
    requires !n.superseded && n.ModelOutput() && q == ReadNode(r, n)
    ensures SentCalls(q.out) + CallsOf(q.group) == SentCalls(Flush(r)) + CallHere(n)
    ensures SentResults(q.out) == SentResults(Flush(r)) + ResultHere(n)
  {
    hide Flush, CallsOf, SentCalls, SentResults, ResultOf, Alone;
    FlushSent(r);
    Adds(SentCalls(r.out), SentResults(Flush(r)));
    assert CallHere(n) == CallsHere(n);
    if Joins(r, n) {
      CallsOfSnoc(r.group, n);
      assert SentCalls(r.out) + (CallsOf(r.group) + CallsHere(n)) == SentCalls(r.out) + CallsOf(r.group) + CallsHere(n);
    } else {
      CallsOfSnoc([], n);
      assert [] + [n] == [n];
      assert [] + CallsHere(n) == CallsHere(n);
    }
  }

  /** A request makes exactly the calls that are live on its path, and answers exactly those its results answer, each in
      the order of the path. */
  lemma {:induction false} SentIs(t: seq<Node>)
    ensures SentCalls(Flatten(t)) == FlatMap(CallHere, t) && SentResults(Flatten(t)) == FlatMap(ResultHere, t)
  {
    hide FlatMap, Flush, ReadNode, CallHere, ResultHere, SentCalls, SentResults, CallsOf;
    if t == [] {
      FlushSent(Unread);
      NothingSent();
    } else {
      var init, n := t[..|t| - 1], t[|t| - 1];
      SentIs(init);
      StepSent(Read(init), n);
      FlatMapSnoc(CallHere, init, n);
      FlatMapSnoc(ResultHere, init, n);
      assert init + [n] == t;
    }
  }

  lemma NothingSent()
    ensures SentCalls([]) == [] && SentResults([]) == [] && CallsOf([]) == []
    ensures FlatMap(CallHere, []) == [] && FlatMap(ResultHere, []) == []
  {
    CallsOfSnoc([], Fresh("", "", None, ExtensionBody));
  }

  // --- one result each

  /** Ids of the live calls of S, in the order of the path. */
  function OpenIds(t: seq<Node>, S: set<Ref>): seq<string> {
    if t == [] then []
    else
      var n := t[|t| - 1];
      OpenIds(t[..|t| - 1], S) + if n.LiveCall() && n.ref in S then [n.body.callId] else []
  }

  /** Ids of the live calls, and those that linked results answer. */
  function CallIds(t: seq<Node>): seq<string> {
    if t == [] then []
    else CallIds(t[..|t| - 1]) + if t[|t| - 1].LiveCall() then [t[|t| - 1].body.callId] else []
  }

  function LinkIds(t: seq<Node>): seq<string> {
    if t == [] then []
    else LinkIds(t[..|t| - 1]) + if t[|t| - 1].LinkedResult() then [t[|t| - 1].body.answers.linkedId] else []
  }

  /** A result names the id of the call it links to, wherever both are on the path. */
  predicate Named(t: seq<Node>) {
    forall i, j :: 0 <= i < |t| && 0 <= j < |t| && t[i].LiveCall() && Answers(t[j], t[i].ref) ==>
      t[j].body.answers.linkedId == t[i].body.callId
  }

  lemma {:induction false} OpenIdsSame(t: seq<Node>, S: set<Ref>, T: set<Ref>)
    requires forall i :: 0 <= i < |t| ==> (t[i].ref in S <==> t[i].ref in T)
    ensures OpenIds(t, S) == OpenIds(t, T)
  {
    if t != [] {
      OpenIdsSame(t[..|t| - 1], S, T);
    }
  }

  lemma {:induction false} OpenIdsNone(t: seq<Node>)
    ensures OpenIds(t, {}) == []
  {
    if t != [] {
      OpenIdsNone(t[..|t| - 1]);
    }
  }

  lemma {:induction false} OpenSnoc(init: seq<Node>, n: Node, S: set<Ref>)
    ensures OpenIds(init + [n], S) == if n.LiveCall() && n.ref in S then OpenIds(init, S) + [n.body.callId] else OpenIds(init, S)
  {
    assert (init + [n])[..|init|] == init;
  }

  lemma Behind(a: seq<string>, b: seq<string>, x: string, y: string)
    requires multiset(a) == multiset(b) + multiset{y}
    ensures multiset(a + [x]) == multiset(b + [x]) + multiset{y}
  {
    assert multiset(a + [x]) == multiset(a) + multiset{x};
    assert multiset(b + [x]) == multiset(b) + multiset{x};
  }

  /** One open call less is one id less. */
  lemma {:induction false} OneClosed(t: seq<Node>, S: set<Ref>, i: nat)
    requires InOrder(t) && i < |t| && t[i].LiveCall() && t[i].ref in S
    ensures multiset(OpenIds(t, S)) == multiset(OpenIds(t, S - {t[i].ref})) + multiset{t[i].body.callId}
  {
    hide OpenIds;
    var init, n, fewer := t[..|t| - 1], t[|t| - 1], S - {t[i].ref};
    assert t == init + [n];
    OpenSnoc(init, n, S);
    OpenSnoc(init, n, fewer);
    if i < |t| - 1 {
      OneClosed(init, S, i);
      assert n.ref != t[i].ref;
      if n.LiveCall() && n.ref in S {
        Behind(OpenIds(init, S), OpenIds(init, fewer), n.body.callId, t[i].body.callId);
      }
    } else {
      OpenIdsSame(init, S, fewer);
      assert multiset(OpenIds(init, S) + [n.body.callId]) == multiset(OpenIds(init, S)) + multiset{n.body.callId};
    }
  }

  lemma NamedFront(t: seq<Node>)
    requires Named(t) && InOrder(t) && t != []
    ensures Named(t[..|t| - 1]) && InOrder(t[..|t| - 1])
  {
  }

  lemma Grows(c: seq<string>, l: seq<string>, o: seq<string>, x: string)
    requires multiset(c) == multiset(l) + multiset(o)
    ensures multiset(c + [x]) == multiset(l) + multiset(o + [x]) == multiset(l + [x]) + multiset(o)
  {
    assert multiset(c + [x]) == multiset(c) + multiset{x};
    assert multiset(o + [x]) == multiset(o) + multiset{x};
    assert multiset(l + [x]) == multiset(l) + multiset{x};
  }

  lemma Moves(c: seq<string>, l: seq<string>, o: seq<string>, q: seq<string>, x: string)
    requires multiset(c) == multiset(l) + multiset(o) && multiset(o) == multiset(q) + multiset{x}
    ensures multiset(c) == multiset(l + [x]) + multiset(q)
  {
    assert multiset(l + [x]) == multiset(l) + multiset{x};
  }

  /** The ids called are the ids answered and those still open, each as often. */
  ghost predicate Balanced(t: seq<Node>, S: set<Ref>) {
    multiset(CallIds(t)) == multiset(LinkIds(t)) + multiset(OpenIds(t, S))
  }

  lemma {:induction false} IdsBalance(t: seq<Node>)
    requires InOrder(t) && Named(t) && Pending(t).Some?
    ensures Balanced(t, Pending(t).value)
  {
    if t == [] {
      assert Pending([]) == Some({}) && CallIds(t) == [] && LinkIds(t) == [] && OpenIds(t, {}) == [];
    } else {
      hide Named, InOrder, Pending, Balanced;
      var init, n := t[..|t| - 1], t[|t| - 1];
      assert t == init + [n];
      NamedFront(t);
      PendingSnoc(init, n);
      IdsBalance(init);
      if n.LiveCall() {
        BalanceCall(init, n, Pending(init).value);
      } else if n.LinkedResult() {
        BalanceResult(init, n, Pending(init).value);
      } else {
        BalanceOther(init, n, Pending(init).value);
      }
    }
  }

  lemma {:induction false} IdsSnoc(init: seq<Node>, n: Node, S: set<Ref>)
    ensures CallIds(init + [n]) == if n.LiveCall() then CallIds(init) + [n.body.callId] else CallIds(init)
    ensures LinkIds(init + [n]) == if n.LinkedResult() then LinkIds(init) + [n.body.answers.linkedId] else LinkIds(init)
    ensures OpenIds(init + [n], S) == if n.LiveCall() && n.ref in S then OpenIds(init, S) + [n.body.callId] else OpenIds(init, S)
  {
    assert (init + [n])[..|init|] == init;
    OpenSnoc(init, n, S);
  }

  lemma {:induction false} BalanceOther(init: seq<Node>, n: Node, S: set<Ref>)
    requires Balanced(init, S) && !n.LiveCall() && !n.LinkedResult()
    ensures Balanced(init + [n], S)
  {
    hide CallIds, LinkIds, OpenIds;
    IdsSnoc(init, n, S);
  }

  lemma {:induction false} BalanceCall(init: seq<Node>, n: Node, S: set<Ref>)
    requires InOrder(init + [n]) && Balanced(init, S) && n.LiveCall()
    ensures Balanced(init + [n], S + {n.ref})
  {
    hide CallIds, LinkIds, OpenIds;
    var t := init + [n];
    forall i | 0 <= i < |init| ensures init[i].ref in S <==> init[i].ref in S + {n.ref} {
      assert t[i].ref < t[|init|].ref;
    }
    OpenIdsSame(init, S, S + {n.ref});
    IdsSnoc(init, n, S + {n.ref});
    Grows(CallIds(init), LinkIds(init), OpenIds(init, S), n.body.callId);
  }

  lemma {:induction false} BalanceResult(init: seq<Node>, n: Node, S: set<Ref>)
    requires InOrder(init + [n]) && Named(init + [n]) && Balanced(init, S)
    requires Pending(init) == Some(S) && n.LinkedResult() && n.body.answers.ref in S && !n.LiveCall()
    ensures Balanced(init + [n], S - {n.body.answers.ref})
  {
    hide CallIds, LinkIds, OpenIds, Pending;
    var t, r := init + [n], n.body.answers.ref;
    PendingMeans(init, r);
    var i :| 0 <= i < |init| && init[i].LiveCall() && init[i].ref == r;
    assert t[i] == init[i] && Answers(t[|init|], t[i].ref);
    InitInOrder(t, init, n);
    OneClosed(init, S, i);
    IdsSnoc(init, n, S - {r});
    Moves(CallIds(init), LinkIds(init), OpenIds(init, S), OpenIds(init, S - {r}), n.body.answers.linkedId);
  }

  lemma InitInOrder(t: seq<Node>, init: seq<Node>, n: Node)
    requires InOrder(t) && t == init + [n]
    ensures InOrder(init)
  {
    assert forall i :: 0 <= i < |init| ==> t[i] == init[i];
  }

  /** What the monitor holds are live calls. */
  lemma {:induction false} PendingMeans(t: seq<Node>, r: Ref)
    requires Pending(t).Some? && r in Pending(t).value
    ensures exists i :: 0 <= i < |t| && t[i].LiveCall() && t[i].ref == r
  {
    var init, n := t[..|t| - 1], t[|t| - 1];
    if !(n.LiveCall() && n.ref == r) {
      PendingMeans(init, r);
      var i :| 0 <= i < |init| && init[i].LiveCall() && init[i].ref == r;
      assert t[i].LiveCall() && t[i].ref == r;
    } else {
      assert t[|t| - 1] == n;
    }
  }

  // --- the window

  lemma {:induction false} PendingFrom(p: seq<Node>, q: seq<Node>)
    requires Pending(p) == Some({})
    ensures Pending(p + q) == Pending(q)
  {
    if q == [] {
      assert p + q == p;
    } else {
      var init, n := q[..|q| - 1], q[|q| - 1];
      PendingFrom(p, init);
      assert (p + q)[..|p + q| - 1] == p + init;
    }
  }

  lemma {:induction false} PendingThen(p: seq<Node>, q: seq<Node>)
    requires Pending(p + q).Some?
    ensures Pending(p).Some?
  {
    if q == [] {
      assert p + q == p;
    } else {
      assert (p + q)[..|p + q| - 1] == p + q[..|q| - 1];
      PendingThen(p, q[..|q| - 1]);
    }
  }

  /** A window that starts at a summary is settled when the path is. */
  lemma WindowSettled(t: seq<Node>, start: nat)
    requires Settled(t) && AtSummary(t, start)
    ensures start <= |t| && Settled(t[start..])
  {
    if start == 0 {
      assert t[0..] == t;
    } else {
      var p, c, q := t[..start], t[start], t[start + 1..];
      assert t == (p + [c]) + q;
      PendingThen(p + [c], q);
      PendingSnoc(p, c);
      PendingFrom(p, [c] + q);
      assert t == p + ([c] + q) && t[start..] == [c] + q;
    }
  }

  lemma NamedMarked(nodes: seq<Node>, t: seq<Node>, S: set<Ref>)
    requires LinksBack(nodes) && OnArena(nodes, t)
    ensures Named(Mark(t, S))
  {
    var u := Mark(t, S);
    forall i, j | 0 <= i < |u| && 0 <= j < |u| && u[i].LiveCall() && Answers(u[j], u[i].ref)
      ensures u[j].body.answers.linkedId == u[i].body.callId
    {
      assert nodes[t[i].ref] == t[i] && nodes[t[j].ref] == t[j];
      assert LinksTo(nodes, nodes[t[j].ref]);
    }
  }

  lemma NamedLater(t: seq<Node>, start: nat)
    requires Named(t) && InOrder(t) && start <= |t|
    ensures Named(t[start..]) && InOrder(t[start..])
  {
  }

  /** Where nothing is open: in the window, hosts' calls aside, every id is called as often as a result answers it. */
  lemma {:induction false} OneResultEach(s: Session)
    requires s.Valid() && Sound(s.Now()) && s.Now().Open() == Some({})
    ensures s.Now().start <= |s.Now().trail|
    ensures var own := Mark(s.Now().trail[s.Now().start..], s.Now().foreign);
            multiset(CallIds(own)) == multiset(LinkIds(own))
  {
    hide Sessions.Session.Trail, Start, Named, InOrder, LinksBack, Settled, AtSummary, CallIds, LinkIds, Pending;
    hide OnArena, Fenced, AllPosted;
    var v := s.Now();
    var own := Mark(v.trail, v.foreign);
    MarkAt(v.trail, v.foreign, v.start);
    NamedMarked(s.tree.nodes, v.trail, v.foreign);
    MarkInOrder(v.trail, v.foreign);
    OpenSettled(v);
    WindowSettled(own, v.start);
    NamedLater(own, v.start);
    SettledBalance(own[v.start..]);
    assert own[v.start..] == Mark(v.trail[v.start..], v.foreign);
  }

  // --- and so in the request

  function NameOf(c: ToolCall): seq<string> {
    [c.id]
  }

  /** Ids of the calls, and of the results, that hosts brought. */
  function HostCallHere(n: Node, F: set<Ref>): seq<string> {
    if n.LiveCall() && n.ref in F then [n.body.callId] else []
  }

  function HostResultHere(n: Node): seq<string> {
    if n.LinkedResult() then [] else ResultHere(n)
  }

  function HostCalls(t: seq<Node>, F: set<Ref>): seq<string> {
    if t == [] then [] else HostCalls(t[..|t| - 1], F) + HostCallHere(t[|t| - 1], F)
  }

  function HostResults(t: seq<Node>): seq<string> {
    if t == [] then [] else HostResults(t[..|t| - 1]) + HostResultHere(t[|t| - 1])
  }

  lemma MarkSnoc(init: seq<Node>, n: Node, F: set<Ref>)
    ensures Mark(init + [n], F) == Mark(init, F) + Mark([n], F) && |Mark([n], F)| == 1
    ensures Mark([n], F)[0].body == n.body && Mark([n], F)[0].LiveCall() == (n.LiveCall() && n.ref !in F)
  {
    MarkConcat(init, [n], F);
  }

  lemma {:induction false} CallsSplit(t: seq<Node>, F: set<Ref>)
    ensures multiset(FlatMap(NameOf, FlatMap(CallHere, t))) == multiset(CallIds(Mark(t, F))) + multiset(HostCalls(t, F))
  {
    if t == [] {
      FlatMapNone(CallHere);
      FlatMapNone(NameOf);
      assert Mark(t, F) == [];
    } else {
      hide FlatMap, Mark, CallIds, CallHere, HostCalls;
      var init, n := t[..|t| - 1], t[|t| - 1];
      assert t == init + [n];
      CallsSplit(init, F);
      CallsSplitSnoc(init, n, F);
      if n.LiveCall() {
        Grows(FlatMap(NameOf, FlatMap(CallHere, init)), CallIds(Mark(init, F)), HostCalls(init, F), n.body.callId);
      }
    }
  }

  lemma {:induction false} CallsSplitSnoc(init: seq<Node>, n: Node, F: set<Ref>)
    ensures var before := FlatMap(NameOf, FlatMap(CallHere, init));
            FlatMap(NameOf, FlatMap(CallHere, init + [n])) == if n.LiveCall() then before + [n.body.callId] else before
    ensures CallIds(Mark(init + [n], F)) == if n.LiveCall() && n.ref !in F then CallIds(Mark(init, F)) + [n.body.callId] else CallIds(Mark(init, F))
    ensures HostCalls(init + [n], F) == if n.LiveCall() && n.ref in F then HostCalls(init, F) + [n.body.callId] else HostCalls(init, F)
  {
    hide FlatMap, Mark, CallIds, CallHere;
    assert (init + [n])[..|init|] == init;
    FlatMapSnoc(CallHere, init, n);
    FlatMapConcat(NameOf, FlatMap(CallHere, init), CallHere(n));
    MarkSnoc(init, n, F);
    assert Mark([n], F) == [Mark([n], F)[0]];
    IdsSnoc(Mark(init, F), Mark([n], F)[0], {});
    NameHere(n);
  }

  lemma NameHere(n: Node)
    ensures FlatMap(NameOf, CallHere(n)) == if n.LiveCall() then [n.body.callId] else []
  {
    if n.LiveCall() {
      FlatMapOne(NameOf, CallHere(n)[0]);
      assert CallHere(n) == [CallHere(n)[0]];
    } else {
      FlatMapNone(NameOf);
    }
  }

  predicate Stays(n: Node) {
    n.LinkedResult() ==> !n.superseded
  }

  lemma {:induction false} ResultsSplit(t: seq<Node>, F: set<Ref>)
    requires forall i :: 0 <= i < |t| ==> Stays(t[i])
    ensures multiset(FlatMap(ResultHere, t)) == multiset(LinkIds(Mark(t, F))) + multiset(HostResults(t))
  {
    if t == [] {
      FlatMapNone(ResultHere);
      assert Mark(t, F) == [];
    } else {
      hide FlatMap, Mark, LinkIds, HostResults, ResultHere, Stays;
      var init, n := t[..|t| - 1], t[|t| - 1];
      assert t == init + [n];
      ResultsSplit(init, F);
      ResultsSplitSnoc(init, n, F);
      if ResultHere(n) != [] {
        Grows(FlatMap(ResultHere, init), LinkIds(Mark(init, F)), HostResults(init), ResultHere(n)[0]);
      }
    }
  }

  lemma {:induction false} ResultsSplitSnoc(init: seq<Node>, n: Node, F: set<Ref>)
    requires Stays(n)
    ensures var x := ResultHere(n);
            && FlatMap(ResultHere, init + [n]) == (if x == [] then FlatMap(ResultHere, init) else FlatMap(ResultHere, init) + [x[0]])
            && LinkIds(Mark(init + [n], F)) == (if x != [] && n.LinkedResult() then LinkIds(Mark(init, F)) + [x[0]] else LinkIds(Mark(init, F)))
            && HostResults(init + [n]) == (if x != [] && !n.LinkedResult() then HostResults(init) + [x[0]] else HostResults(init))
  {
    hide FlatMap, Mark, LinkIds;
    assert (init + [n])[..|init|] == init;
    FlatMapSnoc(ResultHere, init, n);
    MarkSnoc(init, n, F);
    assert Mark([n], F) == [Mark([n], F)[0]];
    IdsSnoc(Mark(init, F), Mark([n], F)[0], {});
  }

  lemma ResultsStay(nodes: seq<Node>, t: seq<Node>)
    requires LinksBack(nodes) && OnArena(nodes, t)
    ensures forall i :: 0 <= i < |t| ==> Stays(t[i])
  {
    forall i | 0 <= i < |t| ensures Stays(t[i]) {
      assert LinksTo(nodes, nodes[t[i].ref]) || !t[i].LinkedResult();
    }
  }

  /** Between turns, and so at every call: the next request makes as many calls of each id as it has tool messages for it,
      exactly when the calls and results that hosts brought do. */
  lemma {:induction false} RequestBalances(s: Session)
    requires s.Valid() && Sound(s.Now()) && s.Now().Open() == Some({})
    ensures s.Now().start <= |s.Now().trail|
    ensures var t, F := s.Now().trail[s.Now().start..], s.Now().foreign;
            multiset(FlatMap(NameOf, SentCalls(s.Now().Window()))) == multiset(SentResults(s.Now().Window()))
            <==> multiset(HostCalls(t, F)) == multiset(HostResults(t))
  {
    hide Sessions.Session.Trail, Start, LinksBack, CallIds, LinkIds, Mark, OnArena, Fenced, AllPosted, HostCalls;
    hide HostResults, SentCalls, SentResults, FlatMap, OpenCalls;
    var v := s.Now();
    OneResultEach(s);
    var t := v.trail[v.start..];
    SentIs(t);
    ResultsStay(s.tree.nodes, v.trail);
    CallsSplit(t, v.foreign);
    ResultsSplit(t, v.foreign);
    SameRest(multiset(CallIds(Mark(t, v.foreign))), multiset(HostCalls(t, v.foreign)), multiset(HostResults(t)));
  }

  lemma SameRest(a: multiset<string>, b: multiset<string>, c: multiset<string>)
    ensures a + b == a + c <==> b == c
  {
    if a + b == a + c {
      forall x ensures b[x] == c[x] {
        assert (a + b)[x] == a[x] + b[x] && (a + c)[x] == a[x] + c[x];
      }
    }
  }

  lemma OpenSettled(v: Ledger)
    requires v.Open() == Some({})
    ensures Settled(Mark(v.trail, v.foreign))
  {
  }

  lemma MarkAt(t: seq<Node>, S: set<Ref>, start: nat)
    requires AtSummary(t, start)
    ensures AtSummary(Mark(t, S), start) && |Mark(t, S)| == |t|
  {
  }

  lemma SettledBalance(t: seq<Node>)
    requires Settled(t) && InOrder(t) && Named(t)
    ensures multiset(CallIds(t)) == multiset(LinkIds(t))
  {
    IdsBalance(t);
    OpenIdsNone(t);
    assert Balanced(t, {});
  }
}
