/** What a flat message becomes when it is stored as nodes and read back (core/convert.go, both directions). */
module NormalForm {
  import opened Wrappers
  import opened Lists
  import opened Messages
  import opened Nodes
  import opened Convert

  /** A user, system or tool message carries text and images only. */
  function CarriedPart(p: Part): seq<Part> {
    if p.Text? || p.Image? then [p] else []
  }

  /** An assistant turn keeps every part but images and empty text. Blank arguments become the empty object, and a
      redacted block with no payload reads back as an empty reasoning block. */
  function TurnPart(p: Part): seq<Part> {
    match p
    case Text(t) => if t != "" then [p] else []
    case Image(_, _, _) => []
    case Redacted(d) => if d != "" then [p] else [Thinking("", "", "", false)]
    case Call(id, name, args) => [Call(id, name, ToolArgs(args))]
    case Thinking(_, _, _, _) => [p]
  }

  /** The normal form: system becomes user, an assistant turn loses its kind, and a turn with no node vanishes. */
  function Normal(m: Message): seq<Message> {
    match m.role
    case User => [Carried(User, m.id, m.kind, FlatMap(CarriedPart, PartsOf(m)))]
    case System => [Carried(User, m.id, m.kind, FlatMap(CarriedPart, PartsOf(m)))]
    case Tool =>
      [Carried(Tool, m.id, m.kind, FlatMap(CarriedPart, PartsOf(m))).(toolCallId := m.toolCallId, toolIsError := m.toolIsError)]
    case Assistant =>
      if Nodeless(m) then []
      else [Synced(Message(Assistant, m.id, "", FlatMap(TurnPart, PartsOf(m)), "", [], [], "", false))]
    case Other(_) => []
  }

  predicate Nodeless(m: Message) {
    forall p :: p in PartsOf(m) ==> p.Image?
  }

  // --- one message

  lemma ContentBack(parts: seq<Part>)
    ensures FlatMap(ContentPart, FlatMap(ContentOf, parts)) == FlatMap(CarriedPart, parts)
  {
    forall p | p in parts ensures FlatMap(ContentPart, ContentOf(p)) == CarriedPart(p) {
      if ContentOf(p) != [] {
        FlatMapOne(ContentPart, ContentOf(p)[0]);
      }
    }
    FlatMapCompose(ContentOf, ContentPart, CarriedPart, parts);
  }

  lemma TurnPartBack(p: Part, d: Dialect)
    ensures FlatMap(PartOfBody, TurnBody(d)(p)) == TurnPart(p)
  {
    if !p.Image? {
      FlatMapOne(PartOfBody, TurnBody(d)(p)[0]);
    }
  }

  lemma TurnBack(parts: seq<Part>, d: Dialect)
    ensures FlatMap(PartOfBody, FlatMap(TurnBody(d), parts)) == FlatMap(TurnPart, parts)
  {
    forall p | p in parts ensures FlatMap(PartOfBody, TurnBody(d)(p)) == TurnPart(p) {
      TurnPartBack(p, d);
    }
    FlatMapCompose(TurnBody(d), PartOfBody, TurnPart, parts);
  }

  lemma {:induction false} BodiesPresent(parts: seq<Part>, d: Dialect)
    ensures FlatMap(TurnBody(d), parts) == [] <==> forall i :: 0 <= i < |parts| ==> parts[i].Image?
  {
    if parts != [] {
      BodiesPresent(parts[..|parts| - 1], d);
      TurnBodyShape(parts[|parts| - 1], d);
    }
  }

  lemma {:induction false} PartsOfNodes(nodes: seq<Node>, bodies: seq<Body>)
    requires |nodes| == |bodies| && forall i :: 0 <= i < |nodes| ==> nodes[i].body == bodies[i]
    ensures FlatMap(PartOf, nodes) == FlatMap(PartOfBody, bodies)
  {
    if nodes != [] {
      PartsOfNodes(nodes[..|nodes| - 1], bodies[..|nodes| - 1]);
    }
  }

  /** One record's output nodes end up in one group. */
  lemma {:induction false} OneGroup(nodes: seq<Node>, rec: nat)
    requires nodes != []
    requires forall i :: 0 <= i < |nodes| ==> nodes[i].ModelOutput() && !nodes[i].superseded && nodes[i].call == Some(rec)
    ensures Read(nodes) == Reading([], nodes, Some(rec))
  {
    hide Turn, Alone;
    var init := nodes[..|nodes| - 1];
    if init != [] {
      OneGroup(init, rec);
      assert Joins(Read(init), nodes[|nodes| - 1]);
      assert nodes == init + [nodes[|nodes| - 1]];
    } else {
      assert nodes == [nodes[0]];
    }
  }

  lemma NodesOfTurn(m: Message, d: Dialect, rec: nat)
    requires m.role.Assistant?
    ensures Flatten(NodesOf(m, d, rec)) == Normal(m)
  {
    var nodes, bodies := NodesOf(m, d, rec), Bodies(m, d);
    assert Nodeless(m) <==> bodies == [] by {
      BodiesPresent(PartsOf(m), d);
    }
    assert FlatMap(PartOf, nodes) == FlatMap(TurnPart, PartsOf(m)) by {
      PartsOfNodes(nodes, bodies);
      TurnBack(PartsOf(m), d);
    }
    if nodes != [] {
      assert Read(nodes) == Reading([], nodes, Some(rec)) by {
        BodiesOutput(PartsOf(m), d);
        forall i | 0 <= i < |nodes|
          ensures nodes[i].ModelOutput() && !nodes[i].superseded && nodes[i].call == Some(rec)
        {
          assert TurnOutput(bodies[i]);
        }
        OneGroup(nodes, rec);
      }
    }
  }

  lemma FlattenAlone(n: Node)
    requires !n.superseded && !n.ModelOutput() && !n.body.ExtensionBody?
    ensures Flatten([n]) == Alone(n)
  {
    assert [n][..0] == [];
    assert Read([n]) == ReadNode(Unread, n);
  }

  lemma NodesOfCarried(m: Message, d: Dialect, rec: nat)
    requires m.role.User? || m.role.System? || m.role.Tool?
    ensures Flatten(NodesOf(m, d, rec)) == Normal(m)
  {
    var n := NodesOf(m, d, rec)[0];
    assert NodesOf(m, d, rec) == [n];
    FlattenAlone(n);
    ContentBack(PartsOf(m));
  }

  lemma NodesOfOne(m: Message, d: Dialect, rec: nat)
    ensures Flatten(NodesOf(m, d, rec)) == Normal(m)
  {
    match m.role
    case Assistant => NodesOfTurn(m, d, rec);
    case Other(_) => assert NodesOf(m, d, rec) == [];
    case _ => NodesOfCarried(m, d, rec);
  }

  // --- a whole transcript

  /** The nodes of a transcript: message i under record first + i. */
  function NodesOfAll(ms: seq<Message>, d: Dialect, first: nat): seq<Node> {
    if ms == [] then []
    else NodesOfAll(ms[..|ms| - 1], d, first) + NodesOf(ms[|ms| - 1], d, first + |ms| - 1)
  }

  lemma {:induction false} RecordsBelow(path: seq<Node>, bound: nat)
    requires forall n :: n in path && n.call.Some? ==> n.call.value < bound
    ensures Read(path).call.Some? ==> Read(path).call.value < bound
  {
    if path != [] {
      RecordsBelow(path[..|path| - 1], bound);
    }
  }

  lemma {:induction false} NodesOfAllRecords(ms: seq<Message>, d: Dialect, first: nat)
    ensures forall n :: n in NodesOfAll(ms, d, first) && n.call.Some? ==> n.call.value < first + |ms|
  {
    if ms != [] {
      NodesOfAllRecords(ms[..|ms| - 1], d, first);
    }
  }

  lemma ApartFromNew(ms: seq<Message>, d: Dialect, first: nat, m: Message)
    ensures Apart(NodesOfAll(ms, d, first), NodesOf(m, d, first + |ms|))
  {
    NodesOfAllRecords(ms, d, first);
    RecordsBelow(NodesOfAll(ms, d, first), first + |ms|);
  }

  /** One more message adds its own normal form to what the path reads as. */
  lemma OneMore(ms: seq<Message>, d: Dialect, first: nat, m: Message)
    ensures Flatten(NodesOfAll(ms, d, first) + NodesOf(m, d, first + |ms|)) == Flatten(NodesOfAll(ms, d, first)) + Normal(m)
  {
    hide *;
    ApartFromNew(ms, d, first, m);
    FlattenApart(NodesOfAll(ms, d, first), NodesOf(m, d, first + |ms|));
    NodesOfOne(m, d, first + |ms|);
  }

  lemma EmptyPath()
    ensures Flatten([]) == []
  {
  }

  lemma {:induction false} RoundTripExact(ms: seq<Message>, d: Dialect, first: nat)
    ensures Flatten(NodesOfAll(ms, d, first)) == FlatMap(Normal, ms)
  {
    hide Flatten, NodesOf, Normal;
    if ms == [] {
      EmptyPath();
    } else {
      RoundTripExact(ms[..|ms| - 1], d, first);
      OneMore(ms[..|ms| - 1], d, first, ms[|ms| - 1]);
    }
  }

  /** Storing any transcript as nodes and reading the path back gives its pointwise normal form, whatever ids the tree
      made up on the way. */
  lemma RoundTrip(ms: seq<Message>, d: Dialect, first: nat, stored: seq<Node>)
    requires AllAlike(stored, NodesOfAll(ms, d, first))
    ensures Flatten(stored) == FlatMap(Normal, ms)
  {
    ReadAlike(stored, NodesOfAll(ms, d, first));
    RoundTripExact(ms, d, first);
  }

  // --- normalising twice

  /** An assistant turn that leaves nodes but nothing to say: every part is an image or empty text, one of them text. */
  predicate Hollow(m: Message) {
    m.role.Assistant? && !Nodeless(m) && forall p :: p in PartsOf(m) ==> p.Image? || p == Text("")
  }

  /** Normalising again changes nothing, exactly unless the message is a hollow assistant turn, which survives the first
      pass as an empty message and vanishes in the second. */
  lemma NormalAgain(m: Message)
    ensures FlatMap(Normal, Normal(m)) == Normal(m) <==> !Hollow(m)
  {
    if Normal(m) == [] {
      assert !Hollow(m);
    } else {
      var n := Normal(m)[0];
      FlatMapOne(Normal, n);
      if m.role.Assistant? {
        TurnAgain(m, n);
      } else {
        CarriedAgain(m, n);
      }
    }
  }

  /** A turn with an image and an empty text is hollow: the second pass drops what the first left of it. */
  lemma HollowVanishes()
    ensures var m := Plain(Assistant, "", "", "").(parts := [Image("png", "", ""), Text("")]);
            Hollow(m) && FlatMap(Normal, Normal(m)) != Normal(m)
  {
    hide Normal;
    var m := Plain(Assistant, "", "", "").(parts := [Image("png", "", ""), Text("")]);
    assert m.parts[1] in PartsOf(m);
    NormalAgain(m);
  }

  lemma TurnPartsTwice(parts: seq<Part>)
    ensures FlatMap(TurnPart, FlatMap(TurnPart, parts)) == FlatMap(TurnPart, parts)
  {
    forall p | p in parts ensures FlatMap(TurnPart, TurnPart(p)) == TurnPart(p) {
      if TurnPart(p) != [] {
        FlatMapOne(TurnPart, TurnPart(p)[0]);
      }
    }
    FlatMapCompose(TurnPart, TurnPart, TurnPart, parts);
  }

  lemma {:induction false} TurnPartsPresent(parts: seq<Part>)
    ensures FlatMap(TurnPart, parts) == [] <==> forall p :: p in parts ==> p.Image? || p == Text("")
    ensures forall p :: p in FlatMap(TurnPart, parts) ==> !p.Image?
  {
    if parts != [] {
      var init, last := parts[..|parts| - 1], parts[|parts| - 1];
      TurnPartsPresent(init);
      assert parts == init + [last];
      assert TurnPart(last) == [] <==> last.Image? || last == Text("");
    }
  }

  lemma TurnAgain(m: Message, n: Message)
    requires m.role.Assistant? && Normal(m) == [n]
    ensures Normal(n) == [n] <==> !Hollow(m)
  {
    TurnPartsTwice(PartsOf(m));
    TurnPartsPresent(PartsOf(m));
    if n.parts == [] {
      assert PartsOf(n) == [];
      assert Hollow(m);
    } else {
      assert n.parts[0] in PartsOf(n) && !n.parts[0].Image?;
    }
  }

  lemma CarriedTwice(parts: seq<Part>)
    ensures FlatMap(CarriedPart, FlatMap(CarriedPart, parts)) == FlatMap(CarriedPart, parts)
  {
    forall p | p in parts ensures FlatMap(CarriedPart, CarriedPart(p)) == CarriedPart(p) {
      if CarriedPart(p) != [] {
        FlatMapOne(CarriedPart, p);
      }
    }
    FlatMapCompose(CarriedPart, CarriedPart, CarriedPart, parts);
  }

  lemma PlainAgain(n: Message)
    requires n.parts == [] && n == Plain(n.role, n.id, n.kind, n.content).(toolCallId := n.toolCallId, toolIsError := n.toolIsError)
    requires n.role.User? || n.role.Tool?
    ensures n.role.User? && n.toolCallId == "" && !n.toolIsError ==> Normal(n) == [n]
    ensures n.role.Tool? ==> Normal(n) == [n]
  {
    PlainParts(n);
    if n.content != "" {
      hide FlatMap, PartsOf;
      FlatMapOne(CarriedPart, Text(n.content));
    }
  }

  lemma PlainParts(n: Message)
    requires n.parts == [] && n.thinking == [] && n.toolCalls == []
    ensures PartsOf(n) == if n.content == "" then [] else [Text(n.content)]
  {
  }

  lemma CarriedAgain(m: Message, n: Message)
    requires !m.role.Assistant? && Normal(m) == [n]
    ensures Normal(n) == [n]
  {
    var once := FlatMap(CarriedPart, PartsOf(m));
    CarriedTwice(PartsOf(m));
    hide FlatMap;
    if (|once| == 1 && once[0].Text?) || once == [] {
      PlainAgain(n);
    } else {
      assert n.parts == once && PartsOf(n) == once;
    }
  }
}
