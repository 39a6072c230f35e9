/** Flat messages made of nodes, and nodes made of flat messages (core/convert.go). */
module Convert {
  import opened Wrappers
  import opened Lists
  import opened Messages
  import opened Nodes

  // Shortened; it stands before the text of a summary.
  const HandoffPrefix := "Summary of the conversation so far.\n\n"

  // --- nodes to messages

  /** The one opaque value a reasoning node carries. */
  function Blob(b: Body): string
    requires b.ThinkingBody?
  {
    if b.signature != "" then b.signature else if b.encrypted != "" then b.encrypted else b.details
  }

  /** The flat part of a model-output node; none for text that is empty. */
  function PartOf(n: Node): seq<Part> {
    PartOfBody(n.body)
  }

  function PartOfBody(b: Body): seq<Part> {
    match b
    case ThinkingBody(text, _, _, redacted, itemId, _, raw, _) =>
      if redacted != "" then [Redacted(redacted)] else [Thinking(text.Current(), Blob(b), itemId, raw)]
    case AssistantBody(text) => if text.Current() != "" then [Text(text.Current())] else []
    case ToolCallBody(callId, name, args) => [Call(callId, name, ToolArgs(args.Current()))]
    case _ => []
  }

  /** The assistant turn of one call's nodes. */
  function Turn(nodes: seq<Node>): Message {
    Synced(Message(Assistant, "", "", FlatMap(PartOf, nodes), "", [], [], "", false))
  }

  method MessageFromNodes(nodes: seq<Node>) returns (m: Message)
    ensures m == Turn(nodes)
  {
    var parts: seq<Part> := [];
    for i := 0 to |nodes|
      invariant parts == FlatMap(PartOf, nodes[..i])
    {
      FlatMapStep(PartOf, nodes, i);
      parts := parts + PartOf(nodes[i]);
    }
    assert nodes[..|nodes|] == nodes;
    m := SyncViews(Message(Assistant, "", "", parts, "", [], [], "", false));
  }

  function ContentPart(c: Content): seq<Part> {
    match c
    case TextContent(t) => [Text(t)]
    case ImageContent(media, src, inline, blob) =>
      [Image(media, if inline == "" && blob.Some? then blob.value else inline, src)]
  }

  /** A content list as a flat message: one text block is plain content, anything else keeps its parts. */
  function Carried(role: Role, id: string, kind: string, parts: seq<Part>): Message {
    var m := Plain(role, id, kind, "");
    if |parts| == 1 && parts[0].Text? then m.(content := parts[0].text) else Synced(m.(parts := parts))
  }

  method FlatContent(role: Role, n: Node, content: seq<Content>) returns (m: Message)
    ensures m == Carried(role, n.HostId(), n.kind, FlatMap(ContentPart, content))
  {
    var parts: seq<Part> := [];
    for i := 0 to |content|
      invariant parts == FlatMap(ContentPart, content[..i])
    {
      FlatMapStep(ContentPart, content, i);
      match content[i]
      case TextContent(t) =>
        parts := parts + [Text(t)];
      case ImageContent(media, src, inline, blob) =>
        var data := inline;
        if blob.Some? && data == "" {
          data := blob.value;
        }
        parts := parts + [Image(media, data, src)];
    }
    assert content[..|content|] == content;
    m := Plain(role, n.HostId(), n.kind, "");
    if |parts| == 1 && parts[0].Text? {
      return m.(content := parts[0].text);
    }
    m := SyncViews(m.(parts := parts));
  }

  function CallIdOf(link: CallLink): string {
    match link
    case Linked(_, id) => id
    case Detached(id) => id
    case NoCall => ""
  }

  /** The message of a node that stands alone. */
  function Alone(n: Node): seq<Message> {
    match n.body
    case UserBody(content) => [Carried(User, n.HostId(), n.kind, FlatMap(ContentPart, content))]
    case SystemBody(content) => [Carried(User, n.HostId(), n.kind, FlatMap(ContentPart, content))]
    case ToolResultBody(answers, content, isError, _) =>
      [Carried(Tool, n.HostId(), n.kind, FlatMap(ContentPart, content)).(toolCallId := CallIdOf(answers), toolIsError := isError)]
    case CompactionBody(summary, _) => [Plain(User, n.HostId(), n.kind, HandoffPrefix + summary.Current())]
    case _ => []
  }

  /** How far a path has been read: the messages that are complete, and the group of one call still open. */
  datatype Reading = Reading(out: seq<Message>, group: seq<Node>, call: Option<nat>)

  const Unread := Reading([], [], None)

  function Flush(r: Reading): seq<Message> {
    if r.group == [] then r.out else r.out + [Turn(r.group).(id := r.group[0].HostId())]
  }

  /** Whether n would join the group that is open. */
  predicate Joins(r: Reading, n: Node) {
    r.group != [] && n.call == r.call && n.call.Some?
  }

  function ReadNode(r: Reading, n: Node): Reading {
    if n.superseded || n.body.ExtensionBody? then r
    else if n.ModelOutput() then
      if Joins(r, n) then r.(group := r.group + [n]) else Reading(Flush(r), [n], n.call)
    else Reading(Flush(r) + Alone(n), [], None)
  }

  function Read(path: seq<Node>): Reading {
    if path == [] then Unread else ReadNode(Read(path[..|path| - 1]), path[|path| - 1])
  }

  /** The flat messages of a path. */
  function Flatten(path: seq<Node>): seq<Message> {
    Flush(Read(path))
  }

  method MessagesFromPath(path: seq<Node>) returns (out: seq<Message>)
    ensures out == Flatten(path)
  {
    hide Turn, FlatMap;
    out := [];
    var group: seq<Node> := [];
    var groupCall: Option<nat> := None;
    for i := 0 to |path|
      invariant Reading(out, group, groupCall) == Read(path[..i])
      invariant group == [] ==> groupCall.None?
    {
      assert path[..i + 1][..i] == path[..i];
      var n := path[i];
      if n.superseded {
        continue;
      }
      match n.body
      case ThinkingBody(_, _, _, _, _, _, _, _) | AssistantBody(_) | ToolCallBody(_, _, _) | RawBlockBody(_, _) =>
        if |group| > 0 && (n.call != groupCall || groupCall.None?) {
          out, group, groupCall := FlushGroup(out, group, groupCall);
        }
        group := group + [n];
        groupCall := n.call;
      case UserBody(content) =>
        out, group, groupCall := FlushGroup(out, group, groupCall);
        var m := FlatContent(User, n, content);
        out := out + [m];
      case SystemBody(content) =>
        out, group, groupCall := FlushGroup(out, group, groupCall);
        var m := FlatContent(User, n, content);
        out := out + [m];
      case ToolResultBody(answers, content, isError, _) =>
        out, group, groupCall := FlushGroup(out, group, groupCall);
        var m := FlatContent(Tool, n, content);
        if !answers.NoCall? {
          m := m.(toolCallId := CallIdOf(answers));
        }
        out := out + [m.(toolIsError := isError)];
      case CompactionBody(summary, _) =>
        out, group, groupCall := FlushGroup(out, group, groupCall);
        out := out + [Plain(User, n.HostId(), n.kind, HandoffPrefix + summary.Current())];
      case ExtensionBody =>
    }
    assert path[..|path|] == path;
    out, group, groupCall := FlushGroup(out, group, groupCall);
  }

  method FlushGroup(out: seq<Message>, group: seq<Node>, call: Option<nat>)
    returns (out': seq<Message>, group': seq<Node>, call': Option<nat>)
    ensures out' == Flush(Reading(out, group, call))
    ensures group' == []
    ensures call' == if group == [] then call else None
  {
    if |group| == 0 {
      return out, group, call;
    }
    var m := MessageFromNodes(group);
    return out + [m.(id := group[0].HostId())], [], None;
  }

  // --- messages to nodes

  function ContentOf(p: Part): seq<Content> {
    match p
    case Text(t) => [TextContent(t)]
    case Image(media, data, src) => [ImageContent(media, src, data, None)]
    case _ => []
  }

  /** A reasoning block, its blob in the field the dialect keeps it in. */
  function ThinkingFromBlock(text: string, blob: string, id: string, raw: bool, d: Dialect): Body {
    var t := ThinkingBody(Finished(text), "", "", "", id, "", raw, d);
    match d
    case Responses => t.(encrypted := blob)
    case OpenAI => t.(details := blob)
    case _ => t.(signature := blob)
  }

  /** The model-output node a part of an assistant message becomes; an image becomes none. */
  function TurnBody(d: Dialect): Part -> seq<Body> {
    (p: Part) =>
      match p
      case Thinking(text, signature, id, raw) => [ThinkingFromBlock(text, signature, id, raw, d)]
      case Redacted(data) => [ThinkingBody(Finished(""), "", "", data, "", "", false, d)]
      case Text(text) => [AssistantBody(Finished(text))]
      case Call(id, name, args) => [ToolCallBody(id, name, Finished(args))]
      case Image(_, _, _) => []
  }

  predicate TurnOutput(b: Body) {
    b.AssistantBody? || b.ThinkingBody? || b.ToolCallBody?
  }

  function Bodies(m: Message, d: Dialect): seq<Body> {
    match m.role
    case User =>
      var content := FlatMap(ContentOf, PartsOf(m));
      if m.kind != "" && m.kind != CompactionKind then [SystemBody(content)] else [UserBody(content)]
    case System => [UserBody(FlatMap(ContentOf, PartsOf(m)))]
    case Tool => [ToolResultBody(Detached(m.toolCallId), FlatMap(ContentOf, PartsOf(m)), m.toolIsError, "")]
    case Assistant => FlatMap(TurnBody(d), PartsOf(m))
    case Other(_) => []
  }

  /** Nodes for bodies: only the first has the id of m. */
  function Stamp(m: Message, call: Option<nat>, bodies: seq<Body>): (nodes: seq<Node>)
    ensures |nodes| == |bodies|
    ensures forall i :: 0 <= i < |nodes| ==> nodes[i] == Fresh(if i == 0 then m.id else "", m.kind, call, bodies[i])
  {
    if bodies == [] then []
    else Stamp(m, call, bodies[..|bodies| - 1]) + [Fresh(if |bodies| == 1 then m.id else "", m.kind, call, bodies[|bodies| - 1])]
  }

  /** The nodes of an assistant turn share one call record, numbered rec. */
  function NodesOf(m: Message, d: Dialect, rec: nat): seq<Node> {
    Stamp(m, if m.role.Assistant? then Some(rec) else None, Bodies(m, d))
  }

  method ContentList(parts: seq<Part>) returns (content: seq<Content>)
    ensures content == FlatMap(ContentOf, parts)
  {
    content := [];
    for i := 0 to |parts|
      invariant content == FlatMap(ContentOf, parts[..i])
    {
      FlatMapStep(ContentOf, parts, i);
      match parts[i]
      case Text(t) => content := content + [TextContent(t)];
      case Image(media, data, src) => content := content + [ImageContent(media, src, data, None)];
      case _ =>
    }
    assert parts[..|parts|] == parts;
  }

  lemma StampSnoc(m: Message, call: Option<nat>, bodies: seq<Body>, made: seq<Body>)
    requires |made| <= 1
    ensures Stamp(m, call, []) == []
    ensures Stamp(m, call, bodies + made) == Stamp(m, call, bodies)
              + if made == [] then [] else [Fresh(if bodies == [] then m.id else "", m.kind, call, made[0])]
  {
    if made == [] {
      assert bodies + made == bodies;
    } else {
      assert (bodies + made)[..|bodies|] == bodies;
    }
  }

  lemma TurnBodyShape(p: Part, d: Dialect)
    ensures if p.Image? then TurnBody(d)(p) == [] else |TurnBody(d)(p)| == 1 && TurnOutput(TurnBody(d)(p)[0])
  {
  }

  predicate AllOutput(bs: seq<Body>) {
    forall i :: 0 <= i < |bs| ==> TurnOutput(bs[i])
  }

  lemma {:induction false} BodiesOutput(parts: seq<Part>, d: Dialect)
    ensures AllOutput(FlatMap(TurnBody(d), parts))
  {
    if parts != [] {
      BodiesOutput(parts[..|parts| - 1], d);
      TurnBodyShape(parts[|parts| - 1], d);
    }
  }

  /** The assistant branch: one node a part, all under the record rec. */
  method TurnNodes(m: Message, parts: seq<Part>, d: Dialect, rec: nat) returns (out: seq<Node>)
    requires parts == PartsOf(m) && m.role.Assistant?
    ensures out == NodesOf(m, d, rec)
  {
    hide Stamp, TurnBody, PartsOf;
    out := [];
    StampSnoc(m, Some(rec), [], []);
    for i := 0 to |parts|
      invariant out == Stamp(m, Some(rec), FlatMap(TurnBody(d), parts[..i]))
    {
      FlatMapStep(TurnBody(d), parts, i);
      TurnBodyShape(parts[i], d);
      ghost var before := FlatMap(TurnBody(d), parts[..i]);
      var made := TurnBody(d)(parts[i]);
      StampSnoc(m, Some(rec), before, made);
      if |made| > 0 {
        out := out + [Fresh(if |out| == 0 then m.id else "", m.kind, Some(rec), made[0])];
      }
    }
    assert parts[..|parts|] == parts;
  }

  method NodesFromMessage(m: Message, d: Dialect, rec: nat) returns (out: seq<Node>)
    ensures out == NodesOf(m, d, rec)
  {
    out := [];
    var parts := EffectiveParts(m);
    match m.role
    case User =>
      var content := ContentList(parts);
      if m.kind != "" && m.kind != CompactionKind {
        out := [Fresh(m.id, m.kind, None, SystemBody(content))];
      } else {
        out := [Fresh(m.id, m.kind, None, UserBody(content))];
      }
    case System =>
      var content := ContentList(parts);
      out := [Fresh(m.id, m.kind, None, UserBody(content))];
    case Tool =>
      var content := ContentList(parts);
      out := [Fresh(m.id, m.kind, None, ToolResultBody(Detached(m.toolCallId), content, m.toolIsError, ""))];
    case Assistant =>
      out := TurnNodes(m, parts, d, rec);
    case Other(_) =>
  }

  // --- what reading a path keeps when it grows

  function ReadMore(r: Reading, q: seq<Node>): Reading {
    if q == [] then r else ReadNode(ReadMore(r, q[..|q| - 1]), q[|q| - 1])
  }

  lemma {:induction false} ReadConcat(p: seq<Node>, q: seq<Node>)
    ensures Read(p + q) == ReadMore(Read(p), q)
  {
    if q == [] {
      assert p + q == p;
    } else {
      ReadConcat(p, q[..|q| - 1]);
      assert (p + q)[..|p + q| - 1] == p + q[..|q| - 1];
    }
  }

  /** No live node of q continues the assistant turn p ends in. */
  predicate Apart(p: seq<Node>, q: seq<Node>) {
    forall i :: 0 <= i < |q| && q[i].ModelOutput() && !q[i].superseded ==> !Joins(Read(p), q[i])
  }

  function After(out: seq<Message>, r: Reading): Reading {
    Reading(out + r.out, r.group, r.call)
  }

  lemma FlushAfter(out: seq<Message>, r: Reading)
    ensures Flush(After(out, r)) == out + Flush(r)
  {
  }

  lemma ReadNodeAfter(out: seq<Message>, r: Reading, n: Node)
    ensures ReadNode(After(out, r), n) == After(out, ReadNode(r, n))
  {
    FlushAfter(out, r);
    assert out + Flush(r) + Alone(n) == out + (Flush(r) + Alone(n));
  }

  lemma {:induction false} ReadApart(p: seq<Node>, q: seq<Node>)
    requires Apart(p, q)
    ensures var r, s := ReadMore(Read(p), q), Read(q);
            if s == Unread then r == Read(p) else r == After(Flatten(p), s)
  {
    if q != [] {
      var init, n := q[..|q| - 1], q[|q| - 1];
      ReadApart(p, init);
      var s := Read(init);
      if s == Unread {
        assert !n.superseded && n.ModelOutput() ==> !Joins(Read(p), n);
      } else {
        ReadNodeAfter(Flatten(p), s, n);
      }
    }
  }

  /** A path read in two pieces that do not share an assistant turn reads as the two readings, one after the other.
      So everything a longer request carries begins with what the shorter one carried. */
  lemma FlattenApart(p: seq<Node>, q: seq<Node>)
    requires Apart(p, q)
    ensures Flatten(p + q) == Flatten(p) + Flatten(q)
    ensures Flatten(p) <= Flatten(p + q)
  {
    ReadConcat(p, q);
    ReadApart(p, q);
    FlushAfter(Flatten(p), Read(q));
  }

  predicate AlikeReadings(r: Reading, s: Reading) {
    r.out == s.out && r.call == s.call && AllAlike(r.group, s.group)
  }

  lemma FlushAlike(r: Reading, s: Reading)
    requires AlikeReadings(r, s)
    ensures Flush(r) == Flush(s)
  {
    TurnAlike(r.group, s.group);
    assert r.group != [] ==> Alike(r.group[0], s.group[0]);
  }

  lemma ReadNodeAlike(r: Reading, s: Reading, n: Node, m: Node)
    requires AlikeReadings(r, s) && Alike(n, m)
    ensures AlikeReadings(ReadNode(r, n), ReadNode(s, m))
  {
    FlushAlike(r, s);
  }

  lemma {:induction false} ReadAlike(p: seq<Node>, q: seq<Node>)
    requires AllAlike(p, q)
    ensures AlikeReadings(Read(p), Read(q))
    ensures Flatten(p) == Flatten(q)
  {
    if p != [] {
      hide Flush, ReadNode;
      ReadAlike(p[..|p| - 1], q[..|q| - 1]);
      ReadNodeAlike(Read(p[..|p| - 1]), Read(q[..|q| - 1]), p[|p| - 1], q[|q| - 1]);
    }
    FlushAlike(Read(p), Read(q));
  }

  lemma {:induction false} TurnAlike(g: seq<Node>, h: seq<Node>)
    requires AllAlike(g, h)
    ensures FlatMap(PartOf, g) == FlatMap(PartOf, h)
  {
    if g != [] {
      TurnAlike(g[..|g| - 1], h[..|h| - 1]);
      assert Alike(g[|g| - 1], h[|h| - 1]);
    }
  }
}
