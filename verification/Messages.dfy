/** The flat transcript message and its two views: ordered parts, and the flattened fields (core/message.go). */
module Messages {
  import opened Lists

  datatype Role = User | System | Assistant | Tool | Other(name: string)

  datatype Part =
    | Text(text: string)
    | Image(mediaType: string, data: string, src: string)
    | Thinking(thought: string, signature: string, itemId: string, raw: bool)
    | Redacted(payload: string)
    | Call(callId: string, name: string, arguments: string)

  /** A reasoning block. A non-empty `redacted` is an opaque payload and the other fields are empty. */
  datatype ThinkingBlock = ThinkingBlock(text: string, signature: string, id: string, redacted: string, raw: bool)

  datatype ToolCall = ToolCall(id: string, name: string, arguments: string)

  datatype Message = Message(
    role: Role, id: string, kind: string, parts: seq<Part>, content: string,
    thinking: seq<ThinkingBlock>, toolCalls: seq<ToolCall>, toolCallId: string, toolIsError: bool)

  /** A message of plain text. */
  function Plain(role: Role, id: string, kind: string, content: string): Message {
    Message(role, id, kind, [], content, [], [], "", false)
  }

  // The white space strings.TrimSpace removes (unicode.IsSpace).
  predicate IsSpace(c: char) {
    c in ['\t', '\n', '\U{000B}', '\U{000C}', '\r', ' ', '\U{0085}', '\U{00A0}', '\U{1680}',
          '\U{2028}', '\U{2029}', '\U{202F}', '\U{205F}', '\U{3000}']
    || '\U{2000}' <= c <= '\U{200A}'
  }

  /** Whether TrimSpace leaves nothing. */
  predicate Blank(s: string) {
    forall i :: 0 <= i < |s| ==> IsSpace(s[i])
  }

  function TrimFront(s: string): string {
    if s != "" && IsSpace(s[0]) then TrimFront(s[1..]) else s
  }

  function TrimBack(s: string): string {
    if s != "" && IsSpace(s[|s| - 1]) then TrimBack(s[..|s| - 1]) else s
  }

  function Trim(s: string): string {
    TrimBack(TrimFront(s))
  }

  lemma {:induction false} TrimFrontBlank(s: string)
    ensures Blank(TrimFront(s)) <==> Blank(s)
    ensures TrimFront(s) == "" <==> Blank(s)
  {
    if s != "" && IsSpace(s[0]) {
      TrimFrontBlank(s[1..]);
      assert forall i :: 1 <= i < |s| ==> s[i] == s[1..][i - 1];
    }
  }

  lemma {:induction false} TrimBackBlank(s: string)
    ensures Blank(TrimBack(s)) <==> Blank(s)
    ensures TrimBack(s) == "" <==> Blank(s)
  {
    if s != "" && IsSpace(s[|s| - 1]) {
      TrimBackBlank(s[..|s| - 1]);
      assert forall i :: 0 <= i < |s| - 1 ==> s[i] == s[..|s| - 1][i];
    }
  }

  lemma TrimBlank(s: string)
    ensures Blank(Trim(s)) <==> Blank(s)
    ensures Trim(s) == "" <==> Blank(s)
  {
    TrimFrontBlank(s);
    TrimBackBlank(TrimFront(s));
  }

  /** What is trimmed off is white space, and what is left neither begins nor ends with any. */
  lemma TrimCuts(s: string) returns (front: string, back: string)
    ensures s == front + Trim(s) + back && Blank(front) && Blank(back)
    ensures Trim(s) != "" ==> !IsSpace(Trim(s)[0]) && !IsSpace(Trim(s)[|Trim(s)| - 1])
  {
    hide IsSpace, Blank, TrimFront, TrimBack;
    var s' := TrimFront(s);
    front := TrimFrontCuts(s);
    back := TrimBackCuts(s');
    var t := TrimBack(s');
    assert s == front + t + back;
    if t != "" {
      assert s'[0] == t[0];
    }
  }

  lemma BlankMore(s: string, t: string)
    requires Blank(s) && Blank(t)
    ensures Blank(s + t)
  {
    hide IsSpace;
  }

  lemma BlankOne(c: char)
    requires IsSpace(c)
    ensures Blank([c])
  {
    hide IsSpace;
  }

  lemma {:induction false} TrimFrontCuts(s: string) returns (front: string)
    ensures s == front + TrimFront(s) && Blank(front)
    ensures TrimFront(s) != "" ==> !IsSpace(TrimFront(s)[0])
  {
    hide IsSpace, Blank;
    if s != "" && IsSpace(s[0]) {
      var rest := TrimFrontCuts(s[1..]);
      front := [s[0]] + rest;
      assert s == [s[0]] + s[1..];
      BlankOne(s[0]);
      BlankMore([s[0]], rest);
    } else {
      front := "";
      NoneBlank();
    }
  }

  lemma {:induction false} TrimBackCuts(s: string) returns (back: string)
    ensures s == TrimBack(s) + back && Blank(back)
    ensures TrimBack(s) != "" ==> !IsSpace(TrimBack(s)[|TrimBack(s)| - 1])
  {
    hide IsSpace, Blank;
    if s != "" && IsSpace(s[|s| - 1]) {
      var init, last := s[..|s| - 1], [s[|s| - 1]];
      var rest := TrimBackCuts(init);
      back := rest + last;
      assert s == init + last;
      assert s == TrimBack(init) + rest + last;
      BlankOne(s[|s| - 1]);
      BlankMore(rest, last);
    } else {
      back := "";
      NoneBlank();
    }
  }

  lemma NoneBlank()
    ensures Blank("")
  {
  }

  /** Arguments as they go on the wire: empty text is not JSON, so it becomes the empty object. */
  function ToolArgs(args: string): (r: string)
    ensures !Blank(r)
    ensures !Blank(args) ==> r == args
    ensures Blank(args) ==> r == "{}"
  {
    if Blank(args) then
      assert !IsSpace("{}"[0]);
      "{}"
    else args
  }

  function TextOf(p: Part): string {
    if p.Text? then p.text else ""
  }

  function BlockOf(p: Part): seq<ThinkingBlock> {
    match p
    case Thinking(t, s, id, raw) => [ThinkingBlock(t, s, id, "", raw)]
    case Redacted(d) => [ThinkingBlock("", "", "", d, false)]
    case _ => []
  }

  function ToolCallOf(p: Part): seq<ToolCall> {
    if p.Call? then [ToolCall(p.callId, p.name, p.arguments)] else []
  }

  /** The part a reasoning block stands for. */
  function PartOfBlock(b: ThinkingBlock): seq<Part> {
    if b.redacted != "" then [Redacted(b.redacted)] else [Thinking(b.text, b.signature, b.id, b.raw)]
  }

  function PartOfCall(c: ToolCall): seq<Part> {
    [Call(c.id, c.name, c.arguments)]
  }

  /** Ordered content: the parts when there are any, else what the flattened fields say, in the order a turn makes them. */
  function PartsOf(m: Message): seq<Part> {
    if |m.parts| > 0 then m.parts
    else FlatMap(PartOfBlock, m.thinking)
         + (if m.content != "" then [Text(m.content)] else [])
         + FlatMap(PartOfCall, m.toolCalls)
  }

  method EffectiveParts(m: Message) returns (out: seq<Part>)
    ensures out == PartsOf(m)
  {
    if |m.parts| > 0 {
      return m.parts;
    }
    out := [];
    for i := 0 to |m.thinking|
      invariant out == FlatMap(PartOfBlock, m.thinking[..i])
    {
      FlatMapStep(PartOfBlock, m.thinking, i);
      var tb := m.thinking[i];
      if tb.redacted != "" {
        out := out + [Redacted(tb.redacted)];
        continue;
      }
      out := out + [Thinking(tb.text, tb.signature, tb.id, tb.raw)];
    }
    assert m.thinking[..|m.thinking|] == m.thinking;
    if m.content != "" {
      out := out + [Text(m.content)];
    }
    ghost var head := out;
    for i := 0 to |m.toolCalls|
      invariant out == head + FlatMap(PartOfCall, m.toolCalls[..i])
    {
      FlatMapStep(PartOfCall, m.toolCalls, i);
      var tc := m.toolCalls[i];
      out := out + [Call(tc.id, tc.name, tc.arguments)];
    }
    assert m.toolCalls[..|m.toolCalls|] == m.toolCalls;
  }

  /** The flattened fields say exactly what the parts say. */
  predicate InStep(m: Message) {
    && m.content == FlatMap(TextOf, m.parts)
    && m.thinking == FlatMap(BlockOf, m.parts)
    && m.toolCalls == FlatMap(ToolCallOf, m.parts)
  }

  function Synced(m: Message): Message {
    if |m.parts| == 0 then m
    else m.(content := FlatMap(TextOf, m.parts), thinking := FlatMap(BlockOf, m.parts), toolCalls := FlatMap(ToolCallOf, m.parts))
  }

  method SyncViews(m: Message) returns (r: Message)
    ensures r == Synced(m)
    ensures |m.parts| > 0 ==> InStep(r) && r.parts == m.parts
  {
    if |m.parts| == 0 {
      return m;
    }
    var text: string := "";
    var thinking: seq<ThinkingBlock>, calls: seq<ToolCall> := [], [];
    for i := 0 to |m.parts|
      invariant text == FlatMap(TextOf, m.parts[..i])
      invariant thinking == FlatMap(BlockOf, m.parts[..i])
      invariant calls == FlatMap(ToolCallOf, m.parts[..i])
    {
      FlatMapStep(TextOf, m.parts, i);
      FlatMapStep(BlockOf, m.parts, i);
      FlatMapStep(ToolCallOf, m.parts, i);
      match m.parts[i]
      case Text(t) => text := text + t;
      case Thinking(t, s, id, raw) => thinking := thinking + [ThinkingBlock(t, s, id, "", raw)];
      case Redacted(d) => thinking := thinking + [ThinkingBlock("", "", "", d, false)];
      case Call(id, name, args) => calls := calls + [ToolCall(id, name, args)];
      case Image(_, _, _) =>
    }
    assert m.parts[..|m.parts|] == m.parts;
    r := m.(content := text, thinking := thinking, toolCalls := calls);
  }

  /** A block whose opaque payload, when it has one, is all it holds. */
  predicate WellFormedBlock(b: ThinkingBlock) {
    b.redacted != "" ==> b == ThinkingBlock("", "", "", b.redacted, false)
  }

  /** The two views are inverse: reading a flat message as parts and flattening those gives its fields back,
      exactly when no redacted block also carries reasoning of its own. */
  lemma ViewsRoundTrip(m: Message)
    requires m.parts == [] && PartsOf(m) != []
    ensures var back := Synced(m.(parts := PartsOf(m)));
            && back.content == m.content
            && back.toolCalls == m.toolCalls
            && (back.thinking == m.thinking <==> forall i :: 0 <= i < |m.thinking| ==> WellFormedBlock(m.thinking[i]))
  {
    TextBack(m);
    BlocksBack(m);
    CallsBack(m);
  }

  lemma PartsBack<B>(f: Part -> seq<B>, m: Message)
    requires m.parts == []
    ensures FlatMap(f, PartsOf(m)) == FlatMap(f, FlatMap(PartOfBlock, m.thinking))
                                      + (if m.content != "" then f(Text(m.content)) else [])
                                      + FlatMap(f, FlatMap(PartOfCall, m.toolCalls))
  {
    var a, c := FlatMap(PartOfBlock, m.thinking), FlatMap(PartOfCall, m.toolCalls);
    var b := if m.content != "" then [Text(m.content)] else [];
    FlatMapConcat(f, a + b, c);
    if b == [] {
      assert a + b == a;
    } else {
      FlatMapSnoc(f, a, b[0]);
    }
  }

  function NoText(b: ThinkingBlock): string { "" }

  function NoTextCall(c: ToolCall): string { "" }

  lemma TextBack(m: Message)
    requires m.parts == []
    ensures FlatMap(TextOf, PartsOf(m)) == m.content
  {
    hide FlatMap;
    PartsBack(TextOf, m);
    forall b | b in m.thinking ensures FlatMap(TextOf, PartOfBlock(b)) == NoText(b) {
      FlatMapOne(TextOf, PartOfBlock(b)[0]);
    }
    FlatMapCompose(PartOfBlock, TextOf, NoText, m.thinking);
    FlatMapNothing(NoText, m.thinking);
    forall c | c in m.toolCalls ensures FlatMap(TextOf, PartOfCall(c)) == NoTextCall(c) {
      FlatMapOne(TextOf, PartOfCall(c)[0]);
    }
    FlatMapCompose(PartOfCall, TextOf, NoTextCall, m.toolCalls);
    FlatMapNothing(NoTextCall, m.toolCalls);
  }

  /** A block as its part remembers it. */
  function Canonical(b: ThinkingBlock): seq<ThinkingBlock> {
    [if b.redacted != "" then ThinkingBlock("", "", "", b.redacted, false) else b]
  }

  function NoBlock(c: ToolCall): seq<ThinkingBlock> { [] }

  lemma BlocksBack(m: Message)
    requires m.parts == []
    ensures FlatMap(BlockOf, PartsOf(m)) == m.thinking
       <==> forall i :: 0 <= i < |m.thinking| ==> WellFormedBlock(m.thinking[i])
  {
    hide FlatMap;
    PartsBack(BlockOf, m);
    forall b | b in m.thinking ensures FlatMap(BlockOf, PartOfBlock(b)) == Canonical(b) {
      FlatMapOne(BlockOf, PartOfBlock(b)[0]);
    }
    FlatMapCompose(PartOfBlock, BlockOf, Canonical, m.thinking);
    FlatMapSingles(Canonical, m.thinking);
    forall c | c in m.toolCalls ensures FlatMap(BlockOf, PartOfCall(c)) == NoBlock(c) {
      FlatMapOne(BlockOf, PartOfCall(c)[0]);
    }
    FlatMapCompose(PartOfCall, BlockOf, NoBlock, m.toolCalls);
    FlatMapNothing(NoBlock, m.toolCalls);
    var back := FlatMap(BlockOf, PartsOf(m));
    assert forall i :: 0 <= i < |back| ==> (back[i] == m.thinking[i] <==> WellFormedBlock(m.thinking[i]));
  }

  function NoCall(b: ThinkingBlock): seq<ToolCall> { [] }

  function SameCall(c: ToolCall): seq<ToolCall> { [c] }

  lemma CallsBack(m: Message)
    requires m.parts == []
    ensures FlatMap(ToolCallOf, PartsOf(m)) == m.toolCalls
  {
    hide FlatMap;
    PartsBack(ToolCallOf, m);
    forall b | b in m.thinking ensures FlatMap(ToolCallOf, PartOfBlock(b)) == NoCall(b) {
      FlatMapOne(ToolCallOf, PartOfBlock(b)[0]);
    }
    FlatMapCompose(PartOfBlock, ToolCallOf, NoCall, m.thinking);
    FlatMapNothing(NoCall, m.thinking);
    forall c | c in m.toolCalls ensures FlatMap(ToolCallOf, PartOfCall(c)) == SameCall(c) {
      FlatMapOne(ToolCallOf, PartOfCall(c)[0]);
    }
    FlatMapCompose(PartOfCall, ToolCallOf, SameCall, m.toolCalls);
    FlatMapSingles(SameCall, m.toolCalls);
    var back := FlatMap(SameCall, m.toolCalls);
    assert forall i :: 0 <= i < |back| ==> [back[i]] == [m.toolCalls[i]];
  }
}
