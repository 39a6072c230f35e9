/** What each kind of node reads as in a request (core/convert.go). */
module Readings {
  import opened Wrappers
  import opened Lists
  import opened Messages
  import opened Nodes
  import opened Convert
  import opened Sessions
  import opened RunRecords
  import opened RunTurns
  import opened RunAnswers

  // --- nodes that stand alone

  /** A live node that no model call produced. */
  predicate StandsAlone(n: Node) {
    !n.superseded && (n.body.UserBody? || n.body.SystemBody? || n.body.ToolResultBody? || n.body.CompactionBody?)
  }

  /** The part is this content. Inline data goes before what a blob reads back as. */
  predicate IsContent(p: Part, c: Content) {
    match c
    case TextContent(text) => p == Text(text)
    case ImageContent(media, src, inline, blob) =>
      p == Image(media, if inline != "" then inline else if blob.Some? then blob.value else "", src)
  }

  function TextsOf(content: seq<Content>): string {
    if content == [] then ""
    else
      var c := content[|content| - 1];
      TextsOf(content[..|content| - 1]) + if c.TextContent? then c.text else ""
  }

  /** The message of this role says this content: one text as it is, anything else part by part. */
  predicate Says(m: Message, role: Role, n: Node, content: seq<Content>) {
    && m.role == role && m.id == n.HostId() && m.kind == n.kind && m.thinking == [] && m.toolCalls == [] && m.content == TextsOf(content)
    && if |content| == 1 && content[0].TextContent? then m.parts == []
       else PartsAre(m.parts, content)
  }

  /** What one node reads as. */
  predicate ReadsAs(n: Node, m: Message) {
    match n.body
    case UserBody(content) => Says(m, User, n, content) && m.toolCallId == "" && !m.toolIsError
    case SystemBody(content) => Says(m, User, n, content) && m.toolCallId == "" && !m.toolIsError
    case ToolResultBody(answers, content, isError, _) =>
      && Says(m, Role.Tool, n, content) && m.toolIsError == isError
      && m.toolCallId == (match answers case Linked(_, id) => id case Detached(id) => id case NoCall => "")
    case CompactionBody(summary, _) =>
      m == Message(User, n.HostId(), n.kind, [], HandoffPrefix + summary.Current(), [], [], "", false)
    case _ => false
  }

  lemma OneSays(c: Content) returns (p: Part)
    ensures ContentPart(c) == [p] && IsContent(p, c)
    ensures TextOf(p) == TextsOf([c]) && BlockOf(p) == [] && ToolCallOf(p) == []
  {
    p := ContentPart(c)[0];
    assert [c][..0] == [];
  }

  lemma TextsSnoc(init: seq<Content>, c: Content)
    ensures TextsOf(init + [c]) == TextsOf(init) + TextsOf([c])
  {
    assert (init + [c])[..|init|] == init && [c][..0] == [];
  }

  /** The parts say the content, one by one. */
  predicate PartsAre(ps: seq<Part>, content: seq<Content>) {
    |ps| == |content| && forall i :: 0 <= i < |content| ==> IsContent(ps[i], content[i])
  }

  lemma PartsAreMore(ps: seq<Part>, init: seq<Content>, p: Part, c: Content)
    requires PartsAre(ps, init) && IsContent(p, c)
    ensures PartsAre(ps + [p], init + [c])
  {
    hide IsContent;
  }

  lemma NoneCarried()
    ensures FlatMap(ContentPart, []) == [] && FlatMap(TextOf, []) == "" && FlatMap(BlockOf, []) == [] && FlatMap(ToolCallOf, []) == []
  {
  }

  lemma {:induction false} ContentSays(content: seq<Content>)
    ensures PartsAre(FlatMap(ContentPart, content), content)
    ensures FlatMap(TextOf, FlatMap(ContentPart, content)) == TextsOf(content)
    ensures FlatMap(BlockOf, FlatMap(ContentPart, content)) == [] && FlatMap(ToolCallOf, FlatMap(ContentPart, content)) == []
  {
    if content == [] {
      NoneCarried();
    } else {
      hide *;
      var init, c := content[..|content| - 1], content[|content| - 1];
      ContentSays(init);
      assert init + [c] == content;
      FlatMapSnoc(ContentPart, init, c);
      TextsSnoc(init, c);
      var p := OneSays(c);
      PartsAreMore(FlatMap(ContentPart, init), init, p, c);
      FlatMapSnoc(TextOf, FlatMap(ContentPart, init), p);
      FlatMapSnoc(BlockOf, FlatMap(ContentPart, init), p);
      FlatMapSnoc(ToolCallOf, FlatMap(ContentPart, init), p);
    }
  }

  lemma CarriedSays(role: Role, n: Node, content: seq<Content>)
    ensures Says(Carried(role, n.HostId(), n.kind, FlatMap(ContentPart, content)), role, n, content)
    ensures var m := Carried(role, n.HostId(), n.kind, FlatMap(ContentPart, content)); m.toolCallId == "" && !m.toolIsError
  {
    hide FlatMap;
    ContentSays(content);
    if |content| == 1 {
      assert content == [content[0]] && content[..0] == [];
    } else if content == [] {
      assert FlatMap(ContentPart, content) == [];
    }
  }

  /** Whatever comes before it and after it, a node that stands alone gives one message, and what that says is fixed. */
  lemma AloneReads(p: seq<Node>, n: Node, q: seq<Node>) returns (m: Message)
    requires StandsAlone(n)
    ensures Flatten(p + [n] + q) == Flatten(p) + [m] + Flatten(q) && ReadsAs(n, m)
  {
    hide Carried, FlatMap, Says;
    assert (p + [n])[..|p|] == p;
    m := Alone(n)[0];
    assert Read(p + [n]).group == [];
    FlattenApart(p + [n], q);
    match n.body
    case UserBody(content) => CarriedSays(User, n, content);
    case SystemBody(content) => CarriedSays(User, n, content);
    case ToolResultBody(_, content, _, _) =>
      CarriedSays(Role.Tool, n, content);
      SaysAnyway(n, content);
    case CompactionBody(_, _) =>
  }

  lemma SaysAnyway(n: Node, content: seq<Content>)
    requires n.body.ToolResultBody?
    requires Says(Carried(Role.Tool, n.HostId(), n.kind, FlatMap(ContentPart, content)), Role.Tool, n, content)
    ensures var m := Carried(Role.Tool, n.HostId(), n.kind, FlatMap(ContentPart, content));
            Says(m.(toolCallId := CallIdOf(n.body.answers), toolIsError := n.body.isError), Role.Tool, n, content)
  {
    hide Carried, FlatMap;
  }

  /** A summary on the wire reads as one message of the user's: the heading, and then the summary. */
  lemma SummaryReads(p: seq<Node>, n: Node, q: seq<Node>)
    requires !n.superseded && n.body.CompactionBody?
    ensures Flatten(p + [n] + q)
         == Flatten(p) + [Message(User, n.HostId(), n.kind, [], HandoffPrefix + n.body.summary.Current(), [], [], "", false)] + Flatten(q)
  {
    var _ := AloneReads(p, n, q);
  }

  // --- nodes that are skipped

  lemma ReadMore(p: seq<Node>, n: Node)
    ensures Read(p + [n]) == ReadNode(Read(p), n)
  {
    hide ReadNode;
    assert (p + [n])[..|p|] == p;
  }

  /** What is superseded, and a host's own kind of node, reads as nothing and parts nothing. */
  lemma {:induction false} SkippedReads(p: seq<Node>, n: Node, q: seq<Node>)
    requires n.superseded || n.body.ExtensionBody?
    ensures Flatten(p + [n] + q) == Flatten(p + q)
  {
    SkippedRead(p, n, q);
  }

  lemma {:induction false} SkippedRead(p: seq<Node>, n: Node, q: seq<Node>)
    requires n.superseded || n.body.ExtensionBody?
    ensures Read(p + [n] + q) == Read(p + q)
  {
    if q == [] {
      assert p + [n] + q == p + [n] && p + q == p;
      ReadMore(p, n);
    } else {
      hide Read, ReadNode;
      var init, last := q[..|q| - 1], q[|q| - 1];
      SkippedRead(p, n, init);
      assert p + [n] + q == p + [n] + init + [last] && p + q == p + init + [last];
      ReadMore(p + [n] + init, last);
      ReadMore(p + init, last);
    }
  }

  // --- turns

  /** The live output of one model call. */
  predicate OneTurn(ns: seq<Node>, call: nat) {
    ns != [] && forall i :: 0 <= i < |ns| ==> ns[i].ModelOutput() && !ns[i].superseded && ns[i].call == Some(call)
  }

  lemma {:induction false} TurnRead(p: seq<Node>, ns: seq<Node>, call: nat)
    requires OneTurn(ns, call) && (forall i :: 0 <= i < |ns| ==> !Joins(Read(p), ns[i]))
    ensures Read(p + ns) == Reading(Flatten(p), ns, Some(call))
  {
    hide Read, Flush;
    var init, n := ns[..|ns| - 1], ns[|ns| - 1];
    assert init + [n] == ns && p + ns == p + init + [n];
    ReadMore(p + init, n);
    if init == [] {
      assert p + init == p && ns == [n];
      assert !Joins(Read(p), ns[0]);
    } else {
      TurnRead(p, init, call);
    }
  }

  /** The output of a model call reads as one message of the assistant's, on the first node's id: its text, its reasoning
      and its calls are those of the nodes, in order. */
  lemma TurnReads(p: seq<Node>, ns: seq<Node>, q: seq<Node>, call: nat) returns (m: Message)
    requires OneTurn(ns, call)
    requires forall i :: 0 <= i < |ns| ==> !Joins(Read(p), ns[i])
    requires forall i :: 0 <= i < |q| && q[i].ModelOutput() && !q[i].superseded ==> q[i].call != Some(call)
    ensures Flatten(p + ns + q) == Flatten(p) + [m] + Flatten(q)
    ensures Speaks(m, BodiesOf(ns)) && m.id == ns[0].HostId() && m.toolCalls == CallsIn(BodiesOf(ns))
  {
    hide FlatMap, TextIn, BlocksIn, OpenParts, CallsIn, BodiesOf, NoCalls, PartOf;
    m := Turn(ns).(id := ns[0].HostId());
    TurnRead(p, ns, call);
    FlattenApart(p + ns, q);
    TurnSpeaks(ns);
    TurnCalls(ns);
  }
}
