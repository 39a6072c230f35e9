/** The session: its tree, its window, and what it has sent (internal/loop/session.go). */
module Sessions {
  import opened Wrappers
  import opened Messages
  import opened Nodes
  import opened Convert
  import opened Protocol
  import opened Trees
  import opened Ledgers
  import opened StateCheck
  import StreamStrings

  // --- paths as nodes

  predicate RefsWithin(refs: seq<Ref>, n: nat) {
    forall i :: 0 <= i < |refs| ==> refs[i] < n
  }

  /** The nodes at refs. */
  function Deref(nodes: seq<Node>, refs: seq<Ref>): (t: seq<Node>)
    requires RefsWithin(refs, |nodes|)
    ensures |t| == |refs|
    ensures forall i :: 0 <= i < |refs| ==> t[i] == nodes[refs[i]]
  {
    if refs == [] then [] else Deref(nodes, refs[..|refs| - 1]) + [nodes[refs[|refs| - 1]]]
  }

  function TrailOf(nodes: seq<Node>, parents: seq<Option<Ref>>, leaf: Option<Ref>): seq<Node>
    requires Grown(parents) && |parents| == |nodes| && Within(leaf, |parents|)
  {
    PathIncreases(parents, leaf);
    Deref(nodes, PathRefs(parents, leaf))
  }

  lemma TrailGrows(nodes: seq<Node>, parents: seq<Option<Ref>>, leaf: Option<Ref>, n: Node)
    requires Grown(parents) && |parents| == |nodes| && Within(leaf, |parents|)
    ensures Grown(parents + [leaf])
    ensures TrailOf(nodes + [n], parents + [leaf], Some(|nodes|)) == TrailOf(nodes, parents, leaf) + [n]
  {
    PathIncreases(parents, leaf);
    PathRefsGrow(parents, parents + [leaf], leaf);
    PathIncreases(parents + [leaf], Some(|nodes|));
  }

  lemma TrailInOrder(nodes: seq<Node>, parents: seq<Option<Ref>>, leaf: Option<Ref>)
    requires Grown(parents) && |parents| == |nodes| && Within(leaf, |parents|) && Placed(nodes)
    ensures InOrder(TrailOf(nodes, parents, leaf))
    ensures forall i :: 0 <= i < |TrailOf(nodes, parents, leaf)| ==>
              TrailOf(nodes, parents, leaf)[i].ref < |nodes| && nodes[TrailOf(nodes, parents, leaf)[i].ref] == TrailOf(nodes, parents, leaf)[i]
  {
    PathIncreases(parents, leaf);
  }

  /** Superseding nodes changes the path nowhere else. */
  lemma TrailMarked(nodes: seq<Node>, parents: seq<Option<Ref>>, leaf: Option<Ref>, S: set<Ref>)
    requires Grown(parents) && |parents| == |nodes| && Within(leaf, |parents|)
    ensures TrailOf(Mark(nodes, S), parents, leaf) == Mark(TrailOf(nodes, parents, leaf), S)
  {
    PathIncreases(parents, leaf);
  }

  // --- the window

  /** Where r first occurs on the path; its length when it does not. */
  function Find(t: seq<Node>, r: Ref): (i: nat)
    ensures i <= |t|
    ensures forall k :: 0 <= k < i ==> t[k].ref != r
    ensures i < |t| ==> t[i].ref == r
  {
    if t == [] then 0
    else
      var i := Find(t[..|t| - 1], r);
      if i < |t| - 1 || t[|t| - 1].ref == r then i else |t|
  }

  /** Where the window starts: the newest compaction, or the root when there is none on the path. */
  function Start(t: seq<Node>, window: Option<Ref>): (w: nat)
    ensures w <= |t|
  {
    if window.None? || Find(t, window.value) == |t| then 0 else Find(t, window.value)
  }

  function WindowOf(t: seq<Node>, window: Option<Ref>): seq<Node> {
    t[Start(t, window)..]
  }

  // --- calls among nodes

  /** The refs that are tool calls still on the wire. */
  function LiveAmong(nodes: seq<Node>, refs: seq<Ref>): (live: seq<Ref>)
    requires RefsWithin(refs, |nodes|)
    ensures RefsWithin(live, |nodes|)
    ensures forall i :: 0 <= i < |live| ==> live[i] in refs && nodes[live[i]].LiveCall()
    ensures forall r :: r in refs && nodes[r].LiveCall() ==> r in live
    ensures Distinct(refs) ==> Distinct(live)
  {
    if refs == [] then []
    else
      var last := refs[|refs| - 1];
      assert refs == refs[..|refs| - 1] + [last];
      LiveAmong(nodes, refs[..|refs| - 1]) + if nodes[last].LiveCall() then [last] else []
  }

  lemma LiveAmongNone(nodes: seq<Node>)
    ensures RefsWithin([], |nodes|) && LiveAmong(nodes, []) == []
  {
  }

  lemma LiveAmongStep(nodes: seq<Node>, refs: seq<Ref>, i: nat)
    requires RefsWithin(refs, |nodes|) && i < |refs|
    ensures refs[i] < |nodes| && RefsWithin(refs[..i], |nodes|) && RefsWithin(refs[..i + 1], |nodes|)
    ensures LiveAmong(nodes, refs[..i + 1]) == LiveAmong(nodes, refs[..i]) + if nodes[refs[i]].LiveCall() then [refs[i]] else []
  {
    assert refs[..i + 1][..i] == refs[..i];
  }

  /** Those no result on the path answers. */
  function Unanswered(live: seq<Ref>, t: seq<Node>): (todo: seq<Ref>)
    ensures forall i :: 0 <= i < |todo| ==> todo[i] in live && !AnsweredIn(t, todo[i])
    ensures forall r :: r in live && !AnsweredIn(t, r) ==> r in todo
    ensures Distinct(live) ==> Distinct(todo)
  {
    if live == [] then []
    else
      var last := live[|live| - 1];
      assert live == live[..|live| - 1] + [last];
      Unanswered(live[..|live| - 1], t) + if AnsweredIn(t, last) then [] else [last]
  }

  lemma UnansweredNone(t: seq<Node>)
    ensures Unanswered([], t) == []
  {
  }

  lemma {:induction false} UnansweredStep(live: seq<Ref>, t: seq<Node>, i: nat)
    requires i < |live|
    ensures Unanswered(live[..i + 1], t) == Unanswered(live[..i], t) + if AnsweredIn(t, live[i]) then [] else [live[i]]
  {
    hide AnsweredIn;
    assert live[..i + 1][..i] == live[..i];
  }

  /** n records content as the result of the call c. */
  predicate Records(n: Node, c: Ref, callId: string, content: string, isError: bool, omitted: string) {
    Alike(n, Fresh("", "", None, ToolResultBody(Linked(c, callId), [TextContent(content)], isError, omitted)))
  }

  // --- what a model call streams

  /** A node a call may produce: anything but an answer to a call of the tree and a compaction. */
  predicate OutputBody(b: Body) {
    !(b.ToolResultBody? && b.answers.Linked?) && !b.CompactionBody?
  }

  type Output = b: Body | OutputBody(b) witness ExtensionBody

  /** What a provider sends: a part begins, text arrives for a part, a part ends, or the try starts again. */
  datatype Piece =
    | Begin(id: string, kind: string, body: Output)
    | Delta(at: nat, arguments: bool, text: string)
    | Done(at: nat)
    | Again

  function WithField(b: Body, f: Field): Body {
    match b
    case AssistantBody(_) => b.(text := f)
    case ThinkingBody(_, _, _, _, _, _, _, _) => b.(thought := f)
    case ToolCallBody(_, _, _) => b.(arguments := f)
    case CompactionBody(_, _) => b.(summary := f)
    case _ => b
  }

  /** One write to a stream field, where there is one. */
  function Written(b: Body, w: StreamStrings.Write): Body {
    match FieldOf(b)
    case Some(f) => WithField(b, StreamStrings.Apply(f, w))
    case None => b
  }

  /** A body whose field is done, on its current text. */
  function Closed(b: Body): Body {
    match FieldOf(b)
    case Some(f) => if f.done then b else Written(b, StreamStrings.Finish(f.Current()))
    case None => b
  }

  /** Text for the arguments goes to a tool call, any other text to a part that is not one. */
  function Extended(b: Body, arguments: bool, text: string): Body {
    if arguments == b.ToolCallBody? then Written(b, StreamStrings.Append(text)) else b
  }

  function Restarted(bs: seq<Body>): (r: seq<Body>)
    ensures |r| == |bs|
    ensures forall i :: 0 <= i < |bs| ==> r[i] == Written(bs[i], StreamStrings.Restart)
  {
    if bs == [] then [] else Restarted(bs[..|bs| - 1]) + [Written(bs[|bs| - 1], StreamStrings.Restart)]
  }

  function AllClosed(bs: seq<Body>): (r: seq<Body>)
    ensures |r| == |bs|
    ensures forall i :: 0 <= i < |bs| ==> r[i] == Closed(bs[i])
  {
    if bs == [] then [] else AllClosed(bs[..|bs| - 1]) + [Closed(bs[|bs| - 1])]
  }

  /** The parts of a call after one more piece. A piece for a part that never began changes nothing. */
  function AddPiece(bs: seq<Body>, p: Piece): seq<Body> {
    match p
    case Begin(_, _, b) => bs + [b]
    case Delta(at, arguments, text) => if at < |bs| then bs[at := Extended(bs[at], arguments, text)] else bs
    case Done(at) => if at < |bs| then bs[at := Closed(bs[at])] else bs
    case Again => Restarted(bs)
  }

  function Assembled(pieces: seq<Piece>): seq<Body> {
    if pieces == [] then [] else AddPiece(Assembled(pieces[..|pieces| - 1]), pieces[|pieces| - 1])
  }

  /** The same node but for the text of its stream field. */
  predicate SameButText(a: Body, b: Body) {
    a == b || (FieldOf(a).Some? && FieldOf(b).Some? && b == WithField(a, FieldOf(b).value))
  }

  /** Nodes of one call: under its record, on the wire, and of a kind a call may produce. */
  predicate OfCall(n: Node, rec: nat) {
    n.call == Some(rec) && !n.superseded && OutputBody(n.body)
  }

  predicate AllOfCall(ns: seq<Node>, rec: nat) {
    forall i :: 0 <= i < |ns| ==> OfCall(ns[i], rec)
  }

  predicate CallsBelow(nodes: seq<Node>, records: nat) {
    forall r :: 0 <= r < |nodes| && nodes[r].call.Some? ==> nodes[r].call.value < records
  }

  /** A result links to a call, by its own id, and stays on the wire. */
  predicate LinksTo(nodes: seq<Node>, n: Node) {
    n.LinkedResult() ==>
      && !n.superseded && n.body.answers.ref < |nodes| && nodes[n.body.answers.ref].body.ToolCallBody?
      && n.body.answers.linkedId == nodes[n.body.answers.ref].body.callId
  }

  /** A result joins after the call it answers. */
  predicate LinksBack(nodes: seq<Node>) {
    forall r :: 0 <= r < |nodes| && nodes[r].LinkedResult() ==> nodes[r].body.answers.ref < r && LinksTo(nodes, nodes[r])
  }

  class Session {
    const tree: Tree
    const dialect: Dialect
    const hash: string -> string
    var leaf: Option<Ref>
    var window: Option<Ref>
    var records: nat
    var index: Option<Index>
    ghost var checked: seq<Node>
    ghost var sent: nat
    ghost var fence: nat
    ghost var foreign: set<Ref>
    ghost var posts: seq<Post>
    ghost var streams: seq<Stream>

    ghost predicate Rooted()
      reads this`leaf, tree
    {
      tree.Valid() && Within(leaf, |tree.nodes|)
    }

    /** The index is of nodes the tree still holds. */
    ghost predicate Indexed()
      reads this`index, this`checked, tree
    {
      Later(checked, tree.nodes) && (index.Some? ==> IndexOf(index.value, checked, hash))
    }

    ghost predicate Valid()
      reads this, tree
    {
      && Rooted() && Within(window, |tree.nodes|)
      && CallsBelow(tree.nodes, records) && LinksBack(tree.nodes)
      && Indexed()
    }

    /** The nodes of the path that ends in the leaf, in order. */
    ghost function Trail(): seq<Node>
      reads this`leaf, tree
      requires Rooted()
    {
      TrailOf(tree.nodes, tree.parents, leaf)
    }

    ghost function Now(): Ledger
      reads this, tree
      requires Rooted()
    {
      Ledger(tree.nodes, Trail(), Start(Trail(), window), sent, fence, records, foreign, posts, streams, dialect)
    }

    constructor (dialect: Dialect, hash: string -> string)
      ensures Valid() && Now() == Ledger([], [], 0, 0, 0, 0, {}, [], [], dialect) && this.hash == hash
      ensures Sound(Now()) && window.None? && index.None?
      ensures fresh(tree)
    {
      tree := new Tree();
      leaf, window, records, index := None, None, 0, None;
      checked, sent, fence, foreign, posts, streams := [], 0, 0, {}, [], [];
      this.dialect, this.hash := dialect, hash;
      new;
      SoundAtFirst(dialect);
    }

    /** The ledger grows by n alone; Panicked when Tree.Add gives none. */
    method Add(n: Node) returns (o: Outcome<Node>)
      requires Valid() && !n.generatedId
      requires n.call.Some? ==> n.call.value < records
      requires LinksTo(tree.nodes, n)
      modifies this`leaf, tree
      ensures Valid()
      ensures o.Returned? ==> Alike(o.value, n) && o.value.ref == |old(tree.nodes)| && leaf == Some(o.value.ref)
      ensures o.Returned? ==> Now() == old(Now()).Grown([o.value], records)
      ensures o.Returned? && n.id != "" ==> o.value.id == n.id
    {
      hide IndexOf, Later, Start, TrailOf, Grown, LinksBack, CallsBelow, Alike, Trees.Tree.Valid;
      tree.IsPlaced();
      var added := tree.Add(n, leaf);
      tree.IsPlaced();
      LaterAdds(checked, old(tree.nodes), tree.nodes);
      if added.None? {
        return Panicked;
      }
      TrailGrows(old(tree.nodes), old(tree.parents), leaf, added.value);
      StartGrows(old(Trail()), added.value, window);
      AddKeeps(old(tree.nodes), n, added.value, records);
      leaf := Some(added.value.ref);
      return Returned(added.value);
    }

    /** The ledger of a told message: NodesOf(m) at the end of the path, all of them foreign. */
    method AppendFlat(m: Message) returns (o: Outcome<seq<Node>>)
      requires Valid()
      modifies this`leaf, this`records, this`foreign, this`posts, tree
      ensures Valid()
      ensures o.Returned? ==> AllAlike(o.value, NodesOf(m, dialect, old(records)))
      ensures o.Returned? ==> Now() == old(Now()).Told(m, o.value) && RefsRun(o.value, |old(tree.nodes)|)
      ensures o.Returned? && Sound(old(Now())) ==> Sound(Now()) && Now().Carried() == old(Now()).Carried() && Now().Open() == old(Now()).Open()
    {
      hide NodesOf, Trail, Trees.Tree.Valid, LinksBack, Indexed, CallsBelow, Sound, Alike, OpenCalls;
      hide Ledgers.Ledger.Carried;
      var rec := records;
      records := records + 1;
      CallsMore(tree.nodes, rec);
      var nodes := NodesFromMessage(m, dialect, rec);
      NodesOfShape(m, dialect, rec);
      var added: seq<Node> := [];
      GrownNone(old(Now()), rec + 1);
      for i := 0 to |nodes|
        invariant Valid() && records == rec + 1
        invariant |added| == i && AllAlike(added, nodes[..i]) && RefsRun(added, |old(tree.nodes)|)
        invariant Now() == old(Now()).Grown(added, rec + 1)
      {
        var n :- Add(nodes[i]);
        AlikeSnoc(added, nodes, n);
        GrownMore(old(Now()), added, n, rec + 1);
        added := added + [n];
      }
      assert nodes[..|nodes|] == nodes;
      foreign := foreign + Elems(NodeRefs(added));
      posts := posts + [Post(m, rec, |old(Trail())|)];
      if Sound(old(Now())) {
        ToldKeeps(old(Now()), m, added);
      }
      return Returned(added);
    }

    method Path() returns (p: seq<Node>)
      requires Valid()
      ensures p == Trail()
    {
      var refs := tree.PathTo(leaf);
      PathIncreases(tree.parents, leaf);
      p := Deref(tree.nodes, refs);
    }

    method WindowPath() returns (out: seq<Node>)
      requires Valid()
      ensures out == WindowOf(Trail(), window)
    {
      hide Trail, Valid;
      var p := Path();
      if window.None? {
        return p;
      }
      for i := 0 to |p|
        invariant forall k :: 0 <= k < i ==> p[k].ref != window.value
      {
        if p[i].ref == window.value {
          assert Find(p, window.value) == i;
          return p[i..];
        }
      }
      assert Find(p, window.value) == |p|;
      return p;
    }

    method Messages() returns (ms: seq<Message>)
      requires Valid()
      ensures ms == Now().Window()
    {
      var p := WindowPath();
      ms := MessagesFromPath(p);
    }

    /** The ledger of a compaction: one node more, at which Start finds the window. No older node is touched. */
    method Compact(summary: string, id: string) returns (o: Outcome<Node>)
      requires Valid()
      modifies this`leaf, this`window, this`sent, this`fence, tree
      ensures Valid()
      ensures o.Returned? ==> Now() == old(Now()).Compacted(o.value) && window == Some(o.value.ref)
      ensures o.Returned? ==> o.value.ref == |old(tree.nodes)|
      ensures o.Returned? ==> Alike(o.value, Fresh(id, CompactionKind, None, CompactionBody(Finished(summary), old(window))))
      ensures o.Returned? && Sound(old(Now())) ==> Sound(Now())
      ensures o.Returned? && Sound(old(Now())) && old(Now()).Open() == Some({}) ==> Now().Open() == Some({})
    {
      hide Trail, Trees.Tree.Valid, LinksBack, CallsBelow, Indexed, Sound, Start, OpenCalls;
      var c := Fresh(id, CompactionKind, None, CompactionBody(StreamStrings.Apply(StreamStrings.Empty, StreamStrings.Finish(summary)), window));
      TrailRefs();
      var n :- Add(c);
      window := Some(n.ref);
      sent, fence := |old(Trail())|, records;
      StartAtEnd(old(Trail()), n);
      if Sound(old(Now())) {
        SoundCompacted(old(Now()), n);
        SoundBounds(old(Now()));
        if old(Now()).Open() == Some({}) {
          OpenCompacted(old(Now()), n);
        }
      }
      return Returned(n);
    }

    lemma TrailRefs()
      requires Valid()
      ensures RefsBelow(Trail(), |tree.nodes|)
    {
      tree.IsPlaced();
      TrailInOrder(tree.nodes, tree.parents, leaf);
    }

    /** Answers call. With omitted set, the call did not run, and that is why. */
    method ToolResult(call: Ref, content: string, isError: bool, omitted: string) returns (o: Outcome<Node>)
      requires Valid() && call < |tree.nodes| && tree.nodes[call].body.ToolCallBody?
      modifies this`leaf, tree
      ensures Valid()
      ensures o.Returned? ==> Now() == old(Now()).Grown([o.value], records) && o.value.ref == |old(tree.nodes)|
      ensures o.Returned? ==> Records(o.value, call, old(tree.nodes)[call].body.callId, content, isError, omitted)
      ensures o.Returned? && Sound(old(Now())) ==> Sound(Now()) && Now().Carried() == old(Now()).Carried()
      ensures o.Returned? && Sound(old(Now())) && old(Now()).Open().Some? && call in old(Now()).Open().value
              ==> Now().Open() == Some(old(Now()).Open().value - {call})
    {
      hide Trail, Trees.Tree.Valid, LinksBack, CallsBelow, Indexed, Sound, Start, OpenCalls, Ledgers.Ledger.Carried;
      var link := Linked(call, tree.nodes[call].body.callId);
      var n :- Add(Fresh("", "", None, ToolResultBody(link, [TextContent(content)], isError, omitted)));
      if Sound(old(Now())) {
        AnswerKeeps(old(Now()), n, call);
      }
      return Returned(n);
    }

    method ToolCalls(refs: seq<Ref>) returns (out: seq<Ref>)
      requires Valid() && RefsWithin(refs, |tree.nodes|)
      ensures out == LiveAmong(tree.nodes, refs)
    {
      hide Valid, RefsWithin;
      out := [];
      LiveAmongNone(tree.nodes);
      for i := 0 to |refs|
        invariant RefsWithin(refs[..i], |tree.nodes|) && out == LiveAmong(tree.nodes, refs[..i])
      {
        LiveAmongStep(tree.nodes, refs, i);
        if tree.nodes[refs[i]].LiveCall() {
          out := out + [refs[i]];
        }
      }
      assert refs[..|refs|] == refs;
    }

    method Answered() returns (answered: set<Ref>)
      requires Valid()
      ensures forall r :: r in answered <==> AnsweredIn(Trail(), r)
    {
      hide AnsweredIn, Trees.Tree.Valid, LinksBack, CallsBelow;
      var p := Path();
      answered := {};
      AnsweredInNone();
      for i := 0 to |p|
        invariant forall r :: r in answered <==> AnsweredIn(p[..i], r)
      {
        forall r ensures AnsweredIn(p[..i + 1], r) <==> AnsweredIn(p[..i], r) || Answers(p[i], r) {
          AnsweredInStep(p, i, r);
        }
        if p[i].LinkedResult() {
          answered := answered + {p[i].body.answers.ref};
        }
      }
      assert p[..|p|] == p;
    }

    /** The live calls among refs that AnsweredIn denies get one result each; when refs are OwnCalls, nothing is Open
        after that. No call node is written. */
    method OmitCalls(refs: seq<Ref>, reason: string) returns (o: Outcome<seq<Node>>)
      requires Valid() && RefsWithin(refs, |tree.nodes|)
      modifies this`leaf, tree
      ensures Valid()
      ensures o.Returned? ==> Now() == old(Now()).Grown(o.value, records) && RefsRun(o.value, |old(tree.nodes)|)
      ensures o.Returned? ==>
                && |o.value| == |Unanswered(LiveAmong(old(tree.nodes), refs), old(Trail()))|
                && OmitsAll(o.value, Unanswered(LiveAmong(old(tree.nodes), refs), old(Trail())), old(tree.nodes), reason)
      ensures o.Returned? && Sound(old(Now())) ==> Sound(Now()) && Now().Carried() == old(Now()).Carried()
      ensures o.Returned? && Sound(old(Now())) && OwnCalls(old(Now()), refs) ==> Now().Open() == Some({})
    {
      hide Trail, Trees.Tree.Valid, LinksBack, CallsBelow, Indexed, LiveAmong, AnsweredIn, Records, Unanswered;
      hide Sound, Start, OwnCalls, OpenCalls, Ledgers.Ledger.Carried;
      var answered := Answered();
      var live := ToolCalls(refs);
      var added: seq<Node> := [];
      ghost var todo: seq<Ref> := [];
      UnansweredNone(old(Trail()));
      GrownNone(old(Now()), records);
      for i := 0 to |live|
        invariant Valid()
        invariant Now() == old(Now()).Grown(added, records) && RefsRun(added, |old(tree.nodes)|)
        invariant todo == Unanswered(live[..i], old(Trail()))
        invariant |added| == |todo| && OmitsAll(added, todo, old(tree.nodes), reason)
      {
        var tc := live[i];
        UnansweredStep(live, old(Trail()), i);
        if tc !in answered {
          var n :- ToolResult(tc, reason, true, reason);
          GrownMore(old(Now()), added, n, records);
          added := added + [n];
          todo := todo + [tc];
        }
      }
      assert live[..|live|] == live;
      if Sound(old(Now())) {
        OmitKeeps(old(Now()), added, todo, reason);
        if OwnCalls(old(Now()), refs) {
          OmitClosesAll(old(Now()), refs, added, todo, reason);
        }
      }
      return Returned(added);
    }

    /** Changes the text of a node, and nothing else anywhere. */
    method Write(r: Ref, b: Body)
      requires Valid() && r < |tree.nodes| && |checked| <= r && SameButText(tree.nodes[r].body, b)
      modifies tree`nodes
      ensures Valid() && tree.nodes == old(tree.nodes)[r := old(tree.nodes)[r].(body := b)]
      ensures |Trail()| == |old(Trail())|
      ensures forall i :: 0 <= i < |Trail()| ==>
                Trail()[i] == if old(Trail())[i].ref == r then old(Trail())[i].(body := b) else old(Trail())[i]
    {
      hide Trees.Tree.Valid, TrailOf, CallsBelow, LinksBack, IndexOf;
      tree.IsPlaced();
      WriteKeeps(tree.nodes, r, b, records);
      TrailWritten(tree.nodes, tree.parents, leaf, r, b);
      tree.Rewrite(r, tree.nodes[r].(body := b));
      tree.IsPlaced();
    }

    /** Changes the text of the k-th of the nodes ns, which joined after v. */
    method WriteAt(ghost v: Ledger, ns: seq<Node>, k: nat, b: Body) returns (out: seq<Node>)
      requires Valid() && Streaming(v, ns) && k < |ns| && SameButText(ns[k].body, b)
      modifies tree`nodes
      ensures Valid() && Streaming(v, out)
      ensures out == ns[k := ns[k].(body := b)]
    {
      hide Trail, Trees.Tree.Valid, TrailOf, CallsBelow, LinksBack, Indexed, SameButText, Start;
      ghost var t := Trail();
      Write(ns[k].ref, b);
      out := ns[k := ns[k].(body := b)];
      GrownWritten(v, ns, k, b, Trail());
      StartSame(t, Trail(), window);
    }

    /** Everything since v is the nodes ns, and none of them was there at the last check. */
    ghost predicate Streaming(v: Ledger, ns: seq<Node>)
      reads this, tree
    {
      && Rooted() && Now() == v.Grown(ns, records)
      && RefsRun(ns, |v.nodes|) && RefsBelow(v.trail, |v.nodes|) && |checked| <= |v.nodes|
    }

    /** Gives every node of the call the text it gets from f: Restart for another try, or the end. */
    method WriteEach(ghost v: Ledger, ns: seq<Node>, closing: bool) returns (out: seq<Node>)
      requires Valid() && Streaming(v, ns)
      modifies tree`nodes
      ensures Valid() && Streaming(v, out)
      ensures SameTurn(ns, out)
      ensures BodiesOf(out) == if closing then AllClosed(BodiesOf(ns)) else Restarted(BodiesOf(ns))
    {
      hide Valid, Streaming, Written, Closed, SameButText;
      out := ns;
      for k := 0 to |ns|
        invariant Valid() && Streaming(v, out) && |out| == |ns|
        invariant forall i :: 0 <= i < |ns| ==> out[i] == if i < k then ns[i].(body := Ended(ns[i].body, closing)) else ns[i]
      {
        EndedShape(out[k].body, closing);
        out := WriteAt(v, out, k, Ended(out[k].body, closing));
      }
      EndedAll(ns, out, closing);
    }

    /** A part begins: its node joins. */
    method Join(ghost v: Ledger, ns: seq<Node>, n: Node) returns (o: Outcome<seq<Node>>)
      requires Valid() && Streaming(v, ns) && !n.generatedId && (n.call.Some? ==> n.call.value < records) && !n.LinkedResult()
      modifies this`leaf, tree
      ensures Valid()
      ensures o.Returned? ==> Streaming(v, o.value) && |o.value| == |ns| + 1 && o.value[..|ns|] == ns
      ensures o.Returned? ==> Alike(o.value[|ns|], n) && (n.id != "" ==> o.value[|ns|].id == n.id)
    {
      hide Trees.Tree.Valid, Trail, CallsBelow, LinksBack, Indexed, Start, RefsBelow, Alike;
      var added :- Add(n);
      GrownMore(v, ns, added, records);
      return Returned(ns + [added]);
    }

    /** One piece of a call. The first node takes the id the host minted, unless the tree has it already. */
    method Take(ghost v: Ledger, ns: seq<Node>, p: Piece, rec: nat, firstID: string) returns (o: Outcome<seq<Node>>)
      requires Valid() && Streaming(v, ns) && rec < records && AllOfCall(ns, rec)
      modifies this`leaf, tree
      ensures Valid()
      ensures o.Returned? ==> Streaming(v, o.value) && AllOfCall(o.value, rec)
      ensures o.Returned? ==> BodiesOf(o.value) == AddPiece(BodiesOf(ns), p)
      ensures o.Returned? && p.Begin? && ns == [] && firstID != "" && firstID !in old(tree.byId) ==> o.value[0].id == firstID
      ensures o.Returned? && ns != [] ==> o.value != [] && o.value[0].id == ns[0].id
    {
      hide Trees.Tree.Valid, Trail, CallsBelow, LinksBack, Indexed, Start, Written, Closed, SameButText, RefsBelow;
      hide Alike;
      hide OfCall, BodiesOf, Restarted, Extended, RefsRun, Streaming;
      match p
      case Begin(id, kind, body) =>
        var n := Fresh(if |ns| == 0 && firstID != "" && firstID !in tree.byId then firstID else id, kind, Some(rec), body);
        o := Join(v, ns, n);
        if o.Returned? {
          JoinedShape(ns, o.value, n, rec);
        }
      case Delta(at, arguments, text) =>
        if at < |ns| {
          ExtendedShape(ns[at].body, arguments, text);
          var out := WriteAt(v, ns, at, Extended(ns[at].body, arguments, text));
          WrittenInto(ns, at, Extended(ns[at].body, arguments, text), rec);
          return Returned(out);
        }
        return Returned(ns);
      case Done(at) =>
        if at < |ns| {
          EndedShape(ns[at].body, true);
          var out := WriteAt(v, ns, at, Closed(ns[at].body));
          WrittenInto(ns, at, Closed(ns[at].body), rec);
          return Returned(out);
        }
        return Returned(ns);
      case Again =>
        var out := WriteEach(v, ns, false);
        SameTurnOfCall(ns, out, rec);
        return Returned(out);
    }

    /** The parts of a call, as its pieces come in, and all of them finished at the end. */
    method Collect(ghost v: Ledger, pieces: seq<Piece>, rec: nat, firstID: string) returns (o: Outcome<seq<Node>>)
      requires Valid() && Streaming(v, []) && rec < records
      modifies this`leaf, tree
      ensures Valid()
      ensures o.Returned? ==> Streaming(v, o.value) && AllOfCall(o.value, rec) && BodiesOf(o.value) == AllClosed(Assembled(pieces))
    {
      hide Trees.Tree.Valid, Trail, CallsBelow, LinksBack, Indexed, Start, AllClosed, AddPiece, BodiesOf, OfCall;
      hide Streaming;
      var ns: seq<Node> := [];
      NoBodies(rec);
      for i := 0 to |pieces|
        invariant Valid() && Streaming(v, ns) && AllOfCall(ns, rec)
        invariant BodiesOf(ns) == Assembled(pieces[..i])
      {
        assert pieces[..i + 1][..i] == pieces[..i];
        ns :- Take(v, ns, pieces[i], rec, firstID);
      }
      assert pieces[..|pieces|] == pieces;
      ghost var before := ns;
      ns := WriteEach(v, ns, true);
      SameTurnOfCall(before, ns, rec);
      return Returned(ns);
    }

    /** One model call joins the tree as it streams, under a record of its own. Gives its nodes, all finished, each with
        what arrived for it. */
    method StreamCall(pieces: seq<Piece>, firstID: string) returns (o: Outcome<seq<Node>>)
      requires Valid()
      modifies this`leaf, this`records, this`streams, tree
      ensures Valid()
      ensures o.Returned? ==> Now() == old(Now()).Streamed(o.value, AllClosed(Assembled(pieces))) && RefsRun(o.value, |old(tree.nodes)|)
      ensures o.Returned? ==> AllOfCall(o.value, old(records)) && BodiesOf(o.value) == AllClosed(Assembled(pieces))
      ensures o.Returned? && Sound(old(Now())) ==> Sound(Now()) && Now().Carried() == old(Now()).Carried()
      ensures o.Returned? && Sound(old(Now())) && old(Now()).Open() == Some({}) ==> Now().Open() == Some(Elems(LiveRefs(o.value)))
    {
      hide Trees.Tree.Valid, Trail, CallsBelow, LinksBack, Indexed, Start, AllClosed, Assembled, BodiesOf;
      hide AllOfCall, Sound, OpenCalls;
      hide Ledgers.Ledger.Carried, LiveRefs, Elems;
      var rec := records;
      ghost var v := Now();
      TrailRefs();
      CallsMore(tree.nodes, rec);
      CheckedBelow();
      records := records + 1;
      GrownNone(v, records);
      var ns :- Collect(v, pieces, rec, firstID);
      streams := streams + [Stream(AllClosed(Assembled(pieces)), rec, |v.trail|)];
      if Sound(v) {
        StreamKeeps(v, ns);
      }
      return Returned(ns);
    }

    lemma CheckedBelow()
      requires Valid()
      ensures |checked| <= |tree.nodes|
    {
    }

    /** Takes the calls off the wire and gives the record of the last of them. */
    method Supersede(live: seq<Ref>) returns (rec: Option<nat>)
      requires Valid() && RefsWithin(live, |tree.nodes|) && AreCalls(tree.nodes, Elems(live))
      modifies tree`nodes
      ensures Valid() && Now() == old(Now()).Without(Elems(live))
      ensures rec == LastCall(old(tree.nodes), live) && (rec.Some? ==> rec.value < records)
    {
      hide Trees.Tree.Valid, CallsBelow, LinksBack, Mark, Elems, IndexOf, Later, Start, TrailOf;
      rec := None;
      MarkNone(tree.nodes);
      tree.IsPlaced();
      for i := 0 to |live|
        invariant tree.Valid() && tree.nodes == Mark(old(tree.nodes), Elems(live[..i]))
        invariant i == 0 || rec == old(tree.nodes)[live[i - 1]].call
        invariant i == 0 ==> rec.None?
      {
        var tc := live[i];
        tree.IsPlaced();
        MarkOne(old(tree.nodes), live, i);
        rec := tree.nodes[tc].call;
        tree.Rewrite(tc, tree.nodes[tc].(superseded := true));
      }
      assert live[..|live|] == live;
      MarkKeeps(old(tree.nodes), checked, Elems(live), records);
      tree.IsPlaced();
      TrailMarked(old(tree.nodes), tree.parents, leaf, Elems(live));
      StartSame(old(Trail()), Trail(), window);
      if |live| > 0 {
        CallOfBelow(old(tree.nodes), live[|live| - 1], records);
      }
    }

    /** The live calls of refs leave the wire, and as many nodes as there are calls join under their record. */
    method ReplaceCalls(refs: seq<Ref>, calls: seq<ToolCall>) returns (o: Outcome<seq<Node>>)
      requires Valid() && RefsWithin(refs, |tree.nodes|)
      modifies this`leaf, tree
      ensures Valid()
      ensures o.Returned? ==>
                Now() == old(Now()).Without(Elems(LiveAmong(old(tree.nodes), refs))).Grown(o.value, records) && RefsRun(o.value, |old(tree.nodes)|)
      ensures o.Returned? ==> |o.value| == |calls| && Makes(o.value, calls, LastCall(old(tree.nodes), LiveAmong(old(tree.nodes), refs)))
    {
      hide Trail, Trees.Tree.Valid, LinksBack, CallsBelow, LiveAmong, Mark, LastCall, Indexed, Start;
      var live := ToolCalls(refs);
      tree.IsPlaced();
      LiveAreCalls(tree.nodes, refs);
      var rec := Supersede(live);
      ghost var v := Now();
      var out: seq<Node> := [];
      GrownNone(v, records);
      for i := 0 to |calls|
        invariant Valid() && |out| == i && Makes(out, calls[..i], rec)
        invariant Now() == v.Grown(out, records) && RefsRun(out, |v.nodes|)
      {
        var c := calls[i];
        var n :- Add(Fresh("", "", rec, ToolCallBody(c.id, c.name, Finished(c.arguments))));
        GrownMore(v, out, n, records);
        out := out + [n];
      }
      assert calls[..|calls|] == calls;
      return Returned(out);
    }

    /** One assistant node more, finished, under a record there already is. */
    method AddText(rec: nat, text: string) returns (o: Outcome<Node>)
      requires Valid() && rec < records
      modifies this`leaf, tree
      ensures Valid()
      ensures o.Returned? ==> Now() == old(Now()).Grown([o.value], records) && o.value.ref == |old(tree.nodes)|
      ensures o.Returned? ==> Alike(o.value, Fresh("", "", Some(rec), AssistantBody(Finished(text))))
    {
      o := Add(Fresh("", "", Some(rec), AssistantBody(Finished(text))));
    }

    /** Compares the tree with what it held at the last check, and names what it no longer holds. */
    method CheckMonotonic() returns (lost: Option<seq<string>>)
      requires Valid()
      modifies this`index, this`checked
      ensures Valid() && index.Some? && checked == tree.nodes
      ensures lost.None?
    {
      hide Trees.Tree.Valid, CallsBelow, LinksBack, IndexOf;
      var order := tree.AllNodes();
      var after := IndexNodes(tree.nodes, order, hash);
      var before := index;
      if before.Some? {
        LaterLosesNothing(before.value, after, checked, tree.nodes, hash);
      }
      index, checked := Some(after), tree.nodes;
      if before.None? {
        return None;
      }
      var missing, _ := Missing(before.value, after);
      if |missing| == 0 {
        return None;
      }
      return Some(missing);
    }
  }

  // --- small facts the methods rest on

  lemma GrownNone(v: Ledger, records: nat)
    ensures v.Grown([], records) == v.(records := records)
  {
    assert v.nodes + [] == v.nodes && v.trail + [] == v.trail;
  }

  lemma GrownMore(v: Ledger, ns: seq<Node>, n: Node, records: nat)
    ensures v.Grown(ns, records).Grown([n], records) == v.Grown(ns + [n], records)
  {
    assert v.nodes + ns + [n] == v.nodes + (ns + [n]) && v.trail + ns + [n] == v.trail + (ns + [n]);
  }

  lemma AddKeeps(nodes: seq<Node>, n: Node, added: Node, records: nat)
    requires CallsBelow(nodes, records) && LinksBack(nodes) && Alike(added, n)
    requires n.call.Some? ==> n.call.value < records
    requires LinksTo(nodes, n)
    ensures CallsBelow(nodes + [added], records) && LinksBack(nodes + [added])
  {
  }

  lemma CallsMore(nodes: seq<Node>, records: nat)
    requires CallsBelow(nodes, records)
    ensures CallsBelow(nodes, records + 1)
  {
  }

  lemma LaterAdds(checked: seq<Node>, a: seq<Node>, b: seq<Node>)
    requires Later(checked, a) && a <= b
    ensures Later(checked, b)
  {
  }

  lemma FindUnique(t: seq<Node>, r: Ref, i: nat)
    requires i <= |t| && (forall k :: 0 <= k < i ==> t[k].ref != r) && (i < |t| ==> t[i].ref == r)
    ensures Find(t, r) == i
  {
  }

  lemma StartGrows(t: seq<Node>, n: Node, window: Option<Ref>)
    requires window.Some? ==> n.ref != window.value
    ensures Start(t + [n], window) == Start(t, window)
  {
    if window.Some? {
      var i := Find(t, window.value);
      FindUnique(t + [n], window.value, if i < |t| then i else |t| + 1);
    }
  }

  lemma StartSame(t: seq<Node>, u: seq<Node>, window: Option<Ref>)
    requires |t| == |u| && forall i :: 0 <= i < |t| ==> t[i].ref == u[i].ref
    ensures Start(t, window) == Start(u, window)
  {
    if window.Some? {
      FindUnique(u, window.value, Find(t, window.value));
    }
  }

  lemma AlikeSnoc(added: seq<Node>, nodes: seq<Node>, n: Node)
    requires |added| < |nodes| && AllAlike(added, nodes[..|added|]) && Alike(n, nodes[|added|])
    ensures AllAlike(added + [n], nodes[..|added| + 1])
  {
    hide Alike;
    assert nodes[..|added| + 1] == nodes[..|added|] + [nodes[|added|]];
  }

  lemma ToldKeeps(v: Ledger, m: Message, ns: seq<Node>)
    requires Sound(v) && AllAlike(ns, NodesOf(m, v.dialect, v.records)) && RefsRun(ns, |v.nodes|)
    ensures Sound(v.Told(m, ns)) && v.Told(m, ns).Carried() == v.Carried() && v.Told(m, ns).Open() == v.Open()
  {
    hide NodesOf, OpenCalls;
    NodesOfShape(m, v.dialect, v.records);
    ShapeAlike(ns, NodesOf(m, v.dialect, v.records), v.records);
    FreshMayJoin(v, ns);
    SoundTold(v, m, ns);
    OpenTold(v, m, ns);
  }

  lemma ShapeAlike(ns: seq<Node>, of: seq<Node>, rec: nat)
    requires AllAlike(ns, of) && forall i :: 0 <= i < |of| ==> Joinable(of[i], rec)
    ensures AllProduced(ns) && forall i :: 0 <= i < |ns| ==> ns[i].call.None? || ns[i].call == Some(rec)
  {
    forall i | 0 <= i < |ns| ensures Produced(ns[i]) && (ns[i].call.None? || ns[i].call == Some(rec)) {
      assert Alike(ns[i], of[i]) && Joinable(of[i], rec);
    }
  }

  lemma StartAtEnd(t: seq<Node>, n: Node)
    requires RefsBelow(t, n.ref)
    ensures Start(t + [n], Some(n.ref)) == |t|
  {
    FindUnique(t + [n], n.ref, |t|);
  }

  lemma SoundBounds(v: Ledger)
    requires Sound(v)
    ensures RefsUnder(v.foreign, |v.nodes|) && InOrder(v.trail) && RefsBelow(v.trail, |v.nodes|) && OnArena(v.nodes, v.trail)
    ensures v.start <= v.sent <= |v.trail| && v.fence <= v.records
  {
  }

  lemma OpenCompacted(v: Ledger, c: Node)
    requires Sound(v) && c.ref == |v.nodes| && c.body.CompactionBody? && v.Open() == Some({})
    ensures v.Compacted(c).Open() == Some({})
  {
    OwnCompaction(v.trail, c, v.foreign, |v.nodes|);
  }

  /** A node under no record may always join. */
  lemma AnswerKeeps(v: Ledger, n: Node, call: Ref)
    requires Sound(v) && n.ref == |v.nodes| && n.call.None? && Answers(n, call)
    ensures Sound(v.Grown([n], v.records)) && v.Grown([n], v.records).Carried() == v.Carried()
    ensures v.Open().Some? && call in v.Open().value ==> v.Grown([n], v.records).Open() == Some(v.Open().value - {call})
  {
    hide Sound, OpenCalls, Ledgers.Ledger.Carried;
    SoundBounds(v);
    SoundGrown(v, [n]);
    OwnAnswer(v.trail, n, v.foreign, |v.nodes|);
  }

  lemma OmitKeeps(v: Ledger, ns: seq<Node>, todo: seq<Ref>, reason: string)
    requires Sound(v) && RefsRun(ns, |v.nodes|) && |ns| == |todo| && OmitsAll(ns, todo, v.nodes, reason)
    ensures Sound(v.Grown(ns, v.records)) && v.Grown(ns, v.records).Carried() == v.Carried()
  {
    hide Sound, Ledgers.Ledger.Carried;
    SoundGrown(v, ns);
  }

  /** The open calls are all among refs, and refs names no live call but the loop's own on the path. */
  predicate OwnCalls(v: Ledger, refs: seq<Ref>) {
    && v.Open().Some? && v.Open().value <= Elems(refs) && Distinct(refs) && RefsWithin(refs, |v.nodes|)
    && forall i :: 0 <= i < |refs| && v.nodes[refs[i]].LiveCall() ==>
         refs[i] !in v.foreign && CallBefore(v.trail, |v.trail|, refs[i])
  }

  lemma OmitTodo(v: Ledger, refs: seq<Ref>)
    requires Sound(v) && OwnCalls(v, refs)
    ensures Elems(Unanswered(LiveAmong(v.nodes, refs), v.trail)) == v.Open().value
    ensures Distinct(Unanswered(LiveAmong(v.nodes, refs), v.trail))
  {
    hide Sound, AnsweredIn, OpenCalls;
    SoundBounds(v);
    var todo := Unanswered(LiveAmong(v.nodes, refs), v.trail);
    forall r ensures r in todo <==> r in v.Open().value {
      OpenMeans(v.trail, v.foreign, r);
      OpenIsLive(v, r);
      assert r in v.Open().value ==> r in Elems(refs);
    }
  }

  lemma OpenIsLive(v: Ledger, r: Ref)
    requires OnArena(v.nodes, v.trail)
    ensures CallBefore(v.trail, |v.trail|, r) ==> r < |v.nodes| && v.nodes[r].LiveCall()
  {
  }

  lemma OmitsAnswer(ns: seq<Node>, todo: seq<Ref>, nodes: seq<Node>, reason: string)
    requires |ns| == |todo| && OmitsAll(ns, todo, nodes, reason)
    ensures forall i :: 0 <= i < |todo| ==> Answers(ns[i], todo[i])
  {
  }

  lemma OpenSome(v: Ledger, refs: seq<Ref>)
    requires OwnCalls(v, refs)
    ensures v.Open().Some?
  {
  }

  lemma OmitClosesAll(v: Ledger, refs: seq<Ref>, ns: seq<Node>, todo: seq<Ref>, reason: string)
    requires Sound(v) && OwnCalls(v, refs) && RefsRun(ns, |v.nodes|)
    requires todo == Unanswered(LiveAmong(v.nodes, refs), v.trail)
    requires |ns| == |todo| && OmitsAll(ns, todo, v.nodes, reason)
    ensures v.Grown(ns, v.records).Open() == Some({})
  {
    hide *;
    OmitTodo(v, refs);
    OmitsAnswer(ns, todo, v.nodes, reason);
    OpenSome(v, refs);
    OwnAnswers(v, ns, todo);
    var p := v.Open().value;
    assert p - p == {};
  }

  lemma OwnAnswers(v: Ledger, ns: seq<Node>, todo: seq<Ref>)
    requires Sound(v) && RefsRun(ns, |v.nodes|) && |ns| == |todo| && Distinct(todo)
    requires v.Open().Some? && Elems(todo) <= v.Open().value
    requires forall i :: 0 <= i < |todo| ==> Answers(ns[i], todo[i])
    ensures v.Grown(ns, v.records).Open() == Some(v.Open().value - Elems(todo))
  {
    hide Sound, Mark, Pending;
    SoundBounds(v);
    OwnGrow(v.trail, ns, v.foreign, |v.nodes|);
    assert forall i :: 0 <= i < |todo| ==> todo[i] in Elems(todo);
    AnswersClose(Mark(v.trail, v.foreign), ns, todo);
  }

  // --- streaming

  function BodiesOf(ns: seq<Node>): (bs: seq<Body>)
    ensures |bs| == |ns|
    ensures forall i :: 0 <= i < |ns| ==> bs[i] == ns[i].body
  {
    if ns == [] then [] else BodiesOf(ns[..|ns| - 1]) + [ns[|ns| - 1].body]
  }

  lemma NoBodies(rec: nat)
    ensures BodiesOf([]) == Assembled([]) && AllOfCall([], rec)
  {
  }

  /** The same nodes but for their text. */
  predicate SameTurn(ns: seq<Node>, out: seq<Node>) {
    |out| == |ns| && forall i :: 0 <= i < |ns| ==> SameButText(ns[i].body, out[i].body) && out[i] == ns[i].(body := out[i].body)
  }

  lemma SameTurnOfCall(ns: seq<Node>, out: seq<Node>, rec: nat)
    requires SameTurn(ns, out) && AllOfCall(ns, rec)
    ensures AllOfCall(out, rec)
  {
    forall i | 0 <= i < |out| ensures OfCall(out[i], rec) {
      assert OfCall(ns[i], rec);
    }
  }

  function Ended(b: Body, closing: bool): Body {
    if closing then Closed(b) else Written(b, StreamStrings.Restart)
  }

  lemma EndedShape(b: Body, closing: bool)
    ensures SameButText(b, Ended(b, closing)) && (OutputBody(b) ==> OutputBody(Ended(b, closing)))
  {
  }

  lemma ExtendedShape(b: Body, arguments: bool, text: string)
    ensures SameButText(b, Extended(b, arguments, text)) && (OutputBody(b) ==> OutputBody(Extended(b, arguments, text)))
  {
  }

  lemma WrittenInto(ns: seq<Node>, k: nat, b: Body, rec: nat)
    requires AllOfCall(ns, rec) && k < |ns| && (OutputBody(ns[k].body) ==> OutputBody(b))
    ensures AllOfCall(ns[k := ns[k].(body := b)], rec)
    ensures BodiesOf(ns[k := ns[k].(body := b)]) == BodiesOf(ns)[k := b]
  {
  }

  lemma JoinedShape(ns: seq<Node>, out: seq<Node>, n: Node, rec: nat)
    requires AllOfCall(ns, rec) && OfCall(n, rec) && |out| == |ns| + 1 && out[..|ns|] == ns && Alike(out[|ns|], n)
    ensures AllOfCall(out, rec) && BodiesOf(out) == BodiesOf(ns) + [n.body]
  {
    assert out == ns + [out[|ns|]];
  }

  lemma EndedAll(ns: seq<Node>, out: seq<Node>, closing: bool)
    requires |out| == |ns| && forall i :: 0 <= i < |ns| ==> out[i] == ns[i].(body := Ended(ns[i].body, closing))
    ensures SameTurn(ns, out)
    ensures BodiesOf(out) == if closing then AllClosed(BodiesOf(ns)) else Restarted(BodiesOf(ns))
  {
    forall i | 0 <= i < |ns| ensures SameButText(ns[i].body, out[i].body) {
      EndedShape(ns[i].body, closing);
    }
  }

  lemma WriteKeeps(nodes: seq<Node>, r: Ref, b: Body, records: nat)
    requires Placed(nodes) && r < |nodes| && SameButText(nodes[r].body, b)
    requires CallsBelow(nodes, records) && LinksBack(nodes)
    ensures CallsBelow(nodes[r := nodes[r].(body := b)], records) && LinksBack(nodes[r := nodes[r].(body := b)])
  {
  }

  lemma TrailWritten(nodes: seq<Node>, parents: seq<Option<Ref>>, leaf: Option<Ref>, r: Ref, b: Body)
    requires Grown(parents) && |parents| == |nodes| && Within(leaf, |parents|) && Placed(nodes) && r < |nodes|
    ensures var t, u := TrailOf(nodes, parents, leaf), TrailOf(nodes[r := nodes[r].(body := b)], parents, leaf);
            |u| == |t| && forall i :: 0 <= i < |t| ==> u[i] == if t[i].ref == r then t[i].(body := b) else t[i]
  {
    PathIncreases(parents, leaf);
  }

  lemma GrownWritten(v: Ledger, ns: seq<Node>, k: nat, b: Body, trail: seq<Node>)
    requires RefsRun(ns, |v.nodes|) && RefsBelow(v.trail, |v.nodes|) && k < |ns| && |trail| == |v.trail + ns|
    requires forall i :: 0 <= i < |trail| ==>
               trail[i] == if (v.trail + ns)[i].ref == ns[k].ref then (v.trail + ns)[i].(body := b) else (v.trail + ns)[i]
    ensures trail == v.trail + ns[k := ns[k].(body := b)]
    ensures (v.nodes + ns)[ns[k].ref := (v.nodes + ns)[ns[k].ref].(body := b)] == v.nodes + ns[k := ns[k].(body := b)]
    ensures RefsRun(ns[k := ns[k].(body := b)], |v.nodes|)
  {
  }

  lemma StreamKeeps(v: Ledger, ns: seq<Node>)
    requires Sound(v) && AllOfCall(ns, v.records) && RefsRun(ns, |v.nodes|)
    ensures Sound(v.Streamed(ns, BodiesOf(ns))) && v.Streamed(ns, BodiesOf(ns)).Carried() == v.Carried()
    ensures v.Open() == Some({}) ==> v.Streamed(ns, BodiesOf(ns)).Open() == Some(Elems(LiveRefs(ns)))
  {
    hide Sound, Ledgers.Ledger.Carried, OpenCalls;
    SoundBounds(v);
    CallShape(ns, v.records);
    FreshMayJoin(v, ns);
    SoundStreamed(v, ns, BodiesOf(ns));
    if v.Open() == Some({}) {
      OwnOpens(v.trail, ns, v.foreign, |v.nodes|);
      assert v.Open().value + Elems(LiveRefs(ns)) == Elems(LiveRefs(ns));
    }
  }

  lemma CallShape(ns: seq<Node>, rec: nat)
    requires AllOfCall(ns, rec)
    ensures AllProduced(ns) && forall i :: 0 <= i < |ns| ==> ns[i].call == Some(rec)
  {
    forall i | 0 <= i < |ns| ensures Produced(ns[i]) && ns[i].call == Some(rec) {
      assert OfCall(ns[i], rec);
    }
  }

  predicate OmitsAll(ns: seq<Node>, todo: seq<Ref>, nodes: seq<Node>, reason: string)
    requires |ns| == |todo|
  {
    forall i :: 0 <= i < |todo| ==>
      todo[i] < |nodes| && nodes[todo[i]].body.ToolCallBody? && Records(ns[i], todo[i], nodes[todo[i]].body.callId, reason, true, reason)
  }

  predicate Makes(ns: seq<Node>, calls: seq<ToolCall>, rec: Option<nat>)
    requires |ns| == |calls|
  {
    forall i :: 0 <= i < |ns| ==>
      Alike(ns[i], Fresh("", "", rec, ToolCallBody(calls[i].id, calls[i].name, Finished(calls[i].arguments))))
  }

  /** The record of the last of the calls. */
  function LastCall(nodes: seq<Node>, live: seq<Ref>): Option<nat>
    requires RefsWithin(live, |nodes|)
  {
    if live == [] then None else nodes[live[|live| - 1]].call
  }

  lemma AnsweredInNone()
    ensures forall r :: !AnsweredIn([], r)
  {
  }

  lemma MarkNone(nodes: seq<Node>)
    ensures Mark(nodes, Elems([])) == nodes
  {
  }

  predicate AreCalls(nodes: seq<Node>, S: set<Ref>) {
    forall r :: 0 <= r < |nodes| && nodes[r].ref in S ==> nodes[r].body.ToolCallBody?
  }

  lemma LiveAreCalls(nodes: seq<Node>, refs: seq<Ref>)
    requires RefsWithin(refs, |nodes|) && Placed(nodes)
    ensures AreCalls(nodes, Elems(LiveAmong(nodes, refs)))
  {
  }

  lemma MarkKeeps(nodes: seq<Node>, checked: seq<Node>, S: set<Ref>, records: nat)
    requires AreCalls(nodes, S)
    requires CallsBelow(nodes, records) && LinksBack(nodes) && Later(checked, nodes)
    ensures CallsBelow(Mark(nodes, S), records) && LinksBack(Mark(nodes, S)) && Later(checked, Mark(nodes, S))
  {
  }

  lemma CallOfBelow(nodes: seq<Node>, r: Ref, records: nat)
    requires CallsBelow(nodes, records) && r < |nodes|
    ensures nodes[r].call.Some? ==> nodes[r].call.value < records
  {
  }

  lemma MarkOne(nodes: seq<Node>, live: seq<Ref>, i: nat)
    requires Placed(nodes) && RefsWithin(live, |nodes|) && i < |live|
    ensures Mark(nodes, Elems(live[..i + 1]))
         == Mark(nodes, Elems(live[..i]))[live[i] := Mark(nodes, Elems(live[..i]))[live[i]].(superseded := true)]
  {
    var S, T := Elems(live[..i]), Elems(live[..i + 1]);
    assert T == S + {live[i]} by {
      assert live[..i + 1] == live[..i] + [live[i]];
    }
    MarkMore(nodes, S, live[i]);
  }

  lemma MarkMore(nodes: seq<Node>, S: set<Ref>, r: Ref)
    requires Placed(nodes) && r < |nodes|
    ensures Mark(nodes, S + {r}) == Mark(nodes, S)[r := Mark(nodes, S)[r].(superseded := true)]
  {
  }

  lemma NodesOfShape(m: Message, d: Dialect, rec: nat)
    ensures forall i :: 0 <= i < |NodesOf(m, d, rec)| ==> Joinable(NodesOf(m, d, rec)[i], rec)
  {
    if m.role.Assistant? {
      BodiesOutput(PartsOf(m), d);
    }
  }

  /** A node of a flat message: it answers no call of the tree and starts no window. */
  predicate Joinable(n: Node, rec: nat) {
    !n.generatedId && !n.superseded && Protocol.Produced(n) && (n.call.Some? ==> n.call == Some(rec))
  }
}
