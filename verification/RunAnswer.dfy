/** What a run answers, read off its events (internal/loop/run_loop.go, internal/loop/run_call.go). */
module RunAnswers {
  import opened Wrappers
  import opened Lists
  import opened Messages
  import opened Nodes
  import opened Convert
  import opened Sessions
  import opened RunRecords
  import opened RunTurns

  // --- what a model call wrote

  /** The text among parts. */
  function TextIn(bodies: seq<Body>): string {
    if bodies == [] then ""
    else
      var b := bodies[|bodies| - 1];
      TextIn(bodies[..|bodies| - 1]) + if b.AssistantBody? then b.text.Current() else ""
  }

  /** The reasoning among parts; what is redacted cannot be read. */
  function ReasoningIn(bodies: seq<Body>): string {
    if bodies == [] then ""
    else
      var b := bodies[|bodies| - 1];
      ReasoningIn(bodies[..|bodies| - 1]) + if b.ThinkingBody? && b.redacted == "" then b.thought.Current() else ""
  }

  /** The opaque value that goes with reasoning: the first of the three there is. */
  function Opaque(signature: string, encrypted: string, details: string): string {
    if signature != "" then signature else if encrypted != "" then encrypted else details
  }

  /** The flat parts but for the calls, in order; an empty text is none. */
  function OpenParts(bodies: seq<Body>): seq<Part> {
    if bodies == [] then []
    else
      var b := bodies[|bodies| - 1];
      OpenParts(bodies[..|bodies| - 1])
      + match b
        case AssistantBody(text) => if text.Current() == "" then [] else [Text(text.Current())]
        case ThinkingBody(thought, signature, encrypted, redacted, itemId, details, raw, _) =>
          if redacted != "" then [Redacted(redacted)]
          else [Thinking(thought.Current(), Opaque(signature, encrypted, details), itemId, raw)]
        case _ => []
  }

  /** The same reasoning as blocks. */
  function BlocksIn(bodies: seq<Body>): seq<ThinkingBlock> {
    if bodies == [] then []
    else
      var b := bodies[|bodies| - 1];
      BlocksIn(bodies[..|bodies| - 1])
      + match b
        case ThinkingBody(thought, signature, encrypted, redacted, itemId, details, raw, _) =>
          if redacted != "" then [ThinkingBlock("", "", "", redacted, false)]
          else [ThinkingBlock(thought.Current(), Opaque(signature, encrypted, details), itemId, "", raw)]
        case _ => []
  }

  /** The parts as an answer on the host's row: without calls, and with this text. */
  function AsAnswer(bodies: seq<Body>, row: string, text: string): Message {
    Message(Assistant, row, "", OpenParts(bodies), text, BlocksIn(bodies), [], "", false)
  }

  /** What a turn comes to: its text, or else its reasoning, or else a placeholder. */
  function TextOrReasoning(bodies: seq<Body>): string {
    if !Blank(TextIn(bodies)) then TextIn(bodies)
    else if !Blank(ReasoningIn(bodies)) then Trim(ReasoningIn(bodies))
    else "(no output was produced this turn)"
  }

  // --- the newest calls

  /** The newest model call of a turn, and the newest of all, which may be a wrap-up. */
  datatype Newest = Newest(turn: Option<Event>, call: Option<Event>)

  function Hears(n: Newest, e: Event): Newest {
    if !e.Called? then n else Newest(if e.wrapUp then n.turn else Some(e), Some(e))
  }

  function NewestIn(log: seq<Event>): Newest {
    if log == [] then Newest(None, None) else Hears(NewestIn(log[..|log| - 1]), log[|log| - 1])
  }

  lemma NewestMore(log: seq<Event>, e: Event)
    ensures NewestIn(log + [e]) == Hears(NewestIn(log), e)
  {
    assert (log + [e])[..|log|] == log;
  }

  /** A wrap-up that went through and wrote something. */
  predicate WroteWrapUp(n: Newest) {
    n.call.Some? && n.call.value.Called? && n.call.value.wrapUp && !n.call.value.failed && !Blank(TextIn(BodiesIn(n.call.value.pieces)))
  }

  /** The answer of a run that ends here: what its newest turn wrote; if it wrote nothing, what the wrap-up wrote; or else
      the turn's reasoning or the placeholder. It stands on the row of the turn. */
  function AnswerOf(n: Newest): Message
    requires n.turn.Some? && n.turn.value.Called?
  {
    var turn := BodiesIn(n.turn.value.pieces);
    if Blank(TextIn(turn)) && WroteWrapUp(n) then
      var wrapUp := BodiesIn(n.call.value.pieces);
      AsAnswer(wrapUp, n.turn.value.row, TextIn(wrapUp))
    else AsAnswer(turn, n.turn.value.row, TextOrReasoning(turn))
  }

  /** A run that ends without an error answers so, and its newest turn's call went through. */
  predicate Replies(n: Newest, final: Option<Message>) {
    n.turn.Some? && n.turn.value.Called? && !n.turn.value.failed && final == Some(AnswerOf(n))
  }

  /** The newest call is that of a turn that may have to stop: it failed when something had arrived, or asked for tools. */
  predicate Owes(n: Newest) {
    && n.call.Some? && n.call == n.turn && n.call.value.Called?
    && var bodies := BodiesIn(n.call.value.pieces); if n.call.value.failed then bodies != [] else CallsIn(bodies) != []
  }

  /** What there is of an answer when a run ends with an error: the output of the newest call, a turn's, as it stands. It is
      not given when the next turn's boundary is under way (`later`), and when it is not, an output that is owed is. */
  predicate Remains(n: Newest, later: bool, final: Option<Message>) {
    match final
    case None => later || !Owes(n)
    case Some(m) =>
      && !later && n.call.Some? && n.call == n.turn && n.call.value.Called?
      && var bodies := BodiesIn(n.call.value.pieces); m == AsAnswer(bodies, n.call.value.row, TextIn(bodies))
  }

  predicate Concludes(n: Newest, later: bool, final: Option<Message>, failed: bool) {
    if failed then Remains(n, later, final) else Replies(n, final)
  }

  // --- the turn's flat message

  /** The flat message says what the parts say; its calls are its own affair. */
  predicate Speaks(m: Message, bodies: seq<Body>) {
    && m.role.Assistant? && m.kind == "" && m.toolCallId == "" && !m.toolIsError
    && m.content == TextIn(bodies) && m.thinking == BlocksIn(bodies) && NoCalls(m.parts) == OpenParts(bodies)
  }

  lemma NoCallsSnoc(ps: seq<Part>, q: seq<Part>)
    requires |q| <= 1
    ensures NoCalls(ps + q) == NoCalls(ps) + if q == [] || q[0].Call? then [] else q
  {
    if q == [] {
      assert ps + q == ps;
    } else {
      assert (ps + q)[..|ps|] == ps && q == [q[0]];
    }
  }

  lemma PartSays(n: Node)
    ensures |PartOf(n)| <= 1
    ensures FlatMap(TextOf, PartOf(n)) == TextIn([n.body])
    ensures FlatMap(BlockOf, PartOf(n)) == BlocksIn([n.body])
    ensures OpenParts([n.body]) == if PartOf(n) == [] || PartOf(n)[0].Call? then [] else PartOf(n)
  {
    assert [n.body][..0] == [];
    if PartOf(n) != [] {
      assert PartOf(n) == [PartOf(n)[0]];
      FlatMapOne(TextOf, PartOf(n)[0]);
      FlatMapOne(BlockOf, PartOf(n)[0]);
    }
  }

  lemma TextSnoc(bs: seq<Body>, b: Body)
    ensures TextIn(bs + [b]) == TextIn(bs) + TextIn([b])
  {
    assert (bs + [b])[..|bs|] == bs && [b][..0] == [];
  }

  lemma BlockSnoc(bs: seq<Body>, b: Body)
    ensures BlocksIn(bs + [b]) == BlocksIn(bs) + BlocksIn([b])
  {
    assert (bs + [b])[..|bs|] == bs && [b][..0] == [];
  }

  lemma OpenSnoc(bs: seq<Body>, b: Body)
    ensures OpenParts(bs + [b]) == OpenParts(bs) + OpenParts([b])
  {
    assert (bs + [b])[..|bs|] == bs && [b][..0] == [];
  }

  /** One node more. */
  lemma {:induction false} PartsSnoc(init: seq<Node>, n: Node)
    ensures FlatMap(TextOf, FlatMap(PartOf, init + [n])) == FlatMap(TextOf, FlatMap(PartOf, init)) + TextIn([n.body])
    ensures FlatMap(BlockOf, FlatMap(PartOf, init + [n])) == FlatMap(BlockOf, FlatMap(PartOf, init)) + BlocksIn([n.body])
    ensures NoCalls(FlatMap(PartOf, init + [n])) == NoCalls(FlatMap(PartOf, init)) + OpenParts([n.body])
  {
    hide FlatMap, PartOf, TextIn, BlocksIn, OpenParts, NoCalls, TextOf, BlockOf;
    FlatMapSnoc(PartOf, init, n);
    FlatMapConcat(TextOf, FlatMap(PartOf, init), PartOf(n));
    FlatMapConcat(BlockOf, FlatMap(PartOf, init), PartOf(n));
    PartSays(n);
    NoCallsSnoc(FlatMap(PartOf, init), PartOf(n));
  }

  lemma {:induction false} PartsSay(ns: seq<Node>)
    ensures FlatMap(TextOf, FlatMap(PartOf, ns)) == TextIn(BodiesOf(ns))
    ensures FlatMap(BlockOf, FlatMap(PartOf, ns)) == BlocksIn(BodiesOf(ns))
    ensures NoCalls(FlatMap(PartOf, ns)) == OpenParts(BodiesOf(ns))
  {
    if ns == [] {
      NoneSay();
    } else {
      hide FlatMap, PartOf, TextIn, BlocksIn, OpenParts, NoCalls, TextOf, BlockOf, BodiesOf;
      var init, n := ns[..|ns| - 1], ns[|ns| - 1];
      PartsSay(init);
      assert init + [n] == ns;
      PartsSnoc(init, n);
      BodiesOfSnoc(init, n);
      TextSnoc(BodiesOf(init), n.body);
      BlockSnoc(BodiesOf(init), n.body);
      OpenSnoc(BodiesOf(init), n.body);
    }
  }

  lemma NoneSay()
    ensures FlatMap(TextOf, FlatMap(PartOf, [])) == TextIn(BodiesOf([]))
    ensures FlatMap(BlockOf, FlatMap(PartOf, [])) == BlocksIn(BodiesOf([]))
    ensures NoCalls(FlatMap(PartOf, [])) == OpenParts(BodiesOf([]))
  {
    assert BodiesOf([]) == [];
  }

  lemma BodiesOfSnoc(ns: seq<Node>, n: Node)
    ensures BodiesOf(ns + [n]) == BodiesOf(ns) + [n.body]
  {
  }

  lemma TurnSpeaks(ns: seq<Node>)
    ensures Speaks(Turn(ns), BodiesOf(ns)) && Turn(ns).id == ""
  {
    hide TextIn, BlocksIn, OpenParts, PartOf, TextOf, BlockOf;
    PartsSay(ns);
    if FlatMap(PartOf, ns) == [] {
      assert FlatMap(TextOf, []) == "" && FlatMap(BlockOf, []) == [];
    }
  }

  /** Without its calls, on its row, it is the parts as an answer. */
  lemma ClearedIs(m: Message, bodies: seq<Body>, row: string)
    requires Speaks(m, bodies) && (m.id == row || m.id == "")
    ensures WithoutCalls(m, row) == AsAnswer(bodies, row, TextIn(bodies))
  {
  }

  lemma {:induction false} ThoughtsAre(bodies: seq<Body>)
    ensures ThoughtText(BlocksIn(bodies)) == ReasoningIn(bodies)
  {
    if bodies != [] {
      var init, b := bodies[..|bodies| - 1], bodies[|bodies| - 1];
      ThoughtsAre(init);
      if b.ThinkingBody? {
        var block := BlocksIn(bodies)[|BlocksIn(bodies)| - 1];
        assert BlocksIn(bodies) == BlocksIn(init) + [block];
        assert BlocksIn(bodies)[..|BlocksIn(init)|] == BlocksIn(init);
      } else {
        assert BlocksIn(bodies) == BlocksIn(init);
      }
    }
  }

  /** The text surfaced for a turn that wrote nothing. */
  lemma FallbackIs(m: Message, bodies: seq<Body>)
    requires Speaks(m, bodies) && Blank(m.content)
    ensures FallbackOutput(m) == TextOrReasoning(bodies)
  {
    hide Blank, Trim, TextIn, ReasoningIn, BlocksIn, OpenParts;
    TrimBlank(m.content);
    TrimBlank(ThoughtText(m.thinking));
    ThoughtsAre(bodies);
  }

  // --- the answer as the loop makes it

  /** The call c left these nodes. */
  predicate HeardAs(c: Option<Event>, wrapUp: bool, row: string, failed: bool, nodes: seq<Node>) {
    && c.Some? && c.value.Called? && c.value.wrapUp == wrapUp && c.value.row == row && c.value.failed == failed
    && BodiesIn(c.value.pieces) == BodiesOf(nodes)
  }

  /** m is the flat message of the newest turn, on its row. */
  predicate IsTurn(n: Newest, m: Message, row: string) {
    && n.turn.Some? && n.turn.value.Called? && !n.turn.value.wrapUp && !n.turn.value.failed && n.turn.value.row == row == m.id
    && Speaks(m, BodiesIn(n.turn.value.pieces))
  }

  /** And no wrap-up was called for since. */
  predicate AtTurn(n: Newest, m: Message, row: string) {
    IsTurn(n, m, row) && n.call == n.turn
  }

  /** What the newest turn comes to by itself. */
  function TurnAnswer(n: Newest): Message
    requires n.turn.Some? && n.turn.value.Called?
  {
    var bodies := BodiesIn(n.turn.value.pieces);
    AsAnswer(bodies, n.turn.value.row, TextOrReasoning(bodies))
  }

  /** The newest turn went through and asked for nothing. */
  predicate Toolless(n: Newest) {
    n.turn.Some? && n.turn.value.Called? && !n.turn.value.failed && CallsIn(BodiesIn(n.turn.value.pieces)) == []
  }

  /** Nothing is owed once the next turn's boundary is under way, or by a turn without tools. */
  lemma Silence(n: Newest, later: bool)
    requires later || Toolless(n)
    ensures Remains(n, later, None)
  {
    hide BodiesIn, CallsIn;
  }

  /** Nor by a call that brought nothing. */
  lemma NothingHeard(n: Newest, row: string, later: bool)
    requires HeardAs(n.call, false, row, true, [])
    ensures Remains(n, later, None)
  {
    hide BodiesIn, CallsIn;
    assert BodiesOf([]) == [];
  }

  lemma HeardToolless(n: Newest, row: string, nodes: seq<Node>)
    requires HeardAs(n.call, false, row, false, nodes) && n.turn == n.call && CallsOf(nodes) == []
    ensures Toolless(n)
  {
    hide BodiesIn, CallsIn, BodiesOf;
  }

  lemma TurnHeard(n: Newest, nodes: seq<Node>, row: string)
    requires HeardAs(n.call, false, row, false, nodes) && n.turn == n.call
    ensures AtTurn(n, Turn(nodes).(id := row), row)
  {
    hide BodiesIn, Speaks, Turn;
    TurnSpeaks(nodes);
    SpeaksAnyway(Turn(nodes), BodiesOf(nodes), row, Turn(nodes).toolCalls);
  }

  /** Neither the row nor the calls make a difference to what it says. */
  lemma SpeaksAnyway(m: Message, bodies: seq<Body>, row: string, calls: seq<ToolCall>)
    requires Speaks(m, bodies)
    ensures Speaks(m.(id := row, toolCalls := calls), bodies)
  {
  }

  lemma AtTurnAnyway(n: Newest, m: Message, row: string, calls: seq<ToolCall>)
    requires AtTurn(n, m, row)
    ensures AtTurn(n, m.(toolCalls := calls), row)
  {
    hide BodiesIn, Speaks;
    SpeaksAnyway(m, BodiesIn(n.turn.value.pieces), row, calls);
  }

  /** Stopped, a turn leaves its own output. */
  lemma TurnStops(n: Newest, m: Message, row: string)
    requires AtTurn(n, m, row)
    ensures Remains(n, false, Some(WithoutCalls(m, row)))
  {
    hide BodiesIn, Speaks, AsAnswer, WithoutCalls;
    ClearedIs(m, BodiesIn(n.turn.value.pieces), row);
  }

  lemma CallStops(n: Newest, nodes: seq<Node>, row: string)
    requires HeardAs(n.call, false, row, true, nodes) && n.turn == n.call
    ensures Remains(n, false, Some(WithoutCalls(Turn(nodes), row)))
  {
    hide BodiesIn, Speaks, AsAnswer, WithoutCalls, Turn;
    TurnSpeaks(nodes);
    ClearedIs(Turn(nodes), BodiesOf(nodes), row);
  }

  /** A turn that wrote something is answered with that. */
  lemma TurnAnswers(n: Newest, m: Message, row: string)
    requires AtTurn(n, m, row) && !Blank(m.content)
    ensures Replies(n, Some(WithoutCalls(m, row)))
  {
    hide BodiesIn, AsAnswer, WithoutCalls, Blank;
    ClearedIs(m, BodiesIn(n.turn.value.pieces), row);
  }

  /** What the loop surfaces of a turn. */
  lemma TurnSurfaces(n: Newest, m: Message, row: string)
    requires IsTurn(n, m, row)
    ensures TurnAnswer(n) == if Blank(m.content) then WithoutCalls(m, row).(content := FallbackOutput(m)) else WithoutCalls(m, row)
  {
    hide BodiesIn, WithoutCalls, Blank, FallbackOutput;
    ClearedIs(m, BodiesIn(n.turn.value.pieces), row);
    if Blank(m.content) {
      FallbackIs(m, BodiesIn(n.turn.value.pieces));
    }
  }

  /** Unless a wrap-up wrote something, that is the answer. */
  lemma SurfaceAnswers(n: Newest, m: Message, row: string)
    requires IsTurn(n, m, row) && !WroteWrapUp(n)
    ensures Replies(n, Some(TurnAnswer(n)))
  {
    hide BodiesIn, Speaks, AsAnswer;
  }

  lemma NoWrapUp(n: Newest, m: Message, row: string)
    requires AtTurn(n, m, row)
    ensures !WroteWrapUp(n)
  {
    hide BodiesIn, Speaks;
  }

  /** A wrap-up that wrote something answers a turn that did not. */
  lemma WrapUpAnswers(n: Newest, m: Message, row: string, nodes: seq<Node>)
    requires IsTurn(n, m, row) && Blank(m.content) && HeardAs(n.call, true, "", false, nodes) && !Blank(Turn(nodes).content)
    ensures Replies(n, Some(WithoutCalls(Turn(nodes), row)))
  {
    hide BodiesIn, AsAnswer, WithoutCalls, Turn, Blank;
    TurnSpeaks(nodes);
    ClearedIs(Turn(nodes), BodiesOf(nodes), row);
  }

  lemma WrapUpSilent(n: Newest, failed: bool, nodes: seq<Node>)
    requires HeardAs(n.call, true, "", failed, nodes) && (failed || Blank(Turn(nodes).content))
    ensures !WroteWrapUp(n)
  {
    hide BodiesIn, Turn, Blank;
    TurnSpeaks(nodes);
  }
}
