/** A response document written as it streams: text goes straight into the open part (core/xmlstream.go). */
module XmlStream {
  import opened Wrappers
  import opened Utf8
  import opened Escaping
  import opened XmlWrite
  import DocRead
  import M = Messages

  function OptAttr(name: string, value: string): seq<Attr> {
    if value == "" then [] else [Attr(name, value)]
  }

  /** The calls that a part is written with, from its start tag to its end tag. */
  function PartOps(p: M.Part): seq<Op> {
    match p
    case Text(t) => [Start("text", []), Op.Text(t), End]
    case Image(media, data, src) => ElementOps("image", data, OptAttr("media-type", media) + OptAttr("src", src))
    case Thinking(t, signature, id, raw) =>
      ElementOps("thinking", t, OptAttr("signature", signature) + OptAttr("id", id) + if raw then [Attr("raw", "true")] else [])
    case Redacted(data) => ElementOps("redacted-thinking", data, [])
    case Call(id, name, args) =>
      [Start("tool-call", OptAttr("id", id) + OptAttr("name", name)), Start("arguments", []), Op.Text(args), End, End]
  }

  /** What a caller asks of a response before it ends it. A report is an empty element: usage without its raw object, or
      timings. */
  datatype Call = Delta(text: string) | Reasoning(text: string) | Part(part: M.Part) | Report(name: string, attrs: seq<Attr>)

  /** The calls of the writer so far, and the part that takes text; "" for none. */
  datatype Response = Response(ops: seq<Op>, part: string)

  function ClosePart(r: Response): Response {
    if r.part == "" then r else Response(r.ops + [End], "")
  }

  function OpenPart(r: Response, name: string): Response {
    if r.part == name then r else Response(ClosePart(r).ops + [Start(name, [])], name)
  }

  function Add(r: Response, more: seq<Op>): Response {
    r.(ops := r.ops + more)
  }

  function Make(r: Response, c: Call): Response {
    match c
    case Delta(t) => if t == "" then r else Add(OpenPart(r, "text"), [Op.Text(t)])
    case Reasoning(t) => if t == "" then r else Add(OpenPart(r, "thinking"), [Op.Text(t)])
    case Part(p) => Add(ClosePart(r), PartOps(p))
    case Report(name, attrs) => Add(ClosePart(r), [Empty(name, attrs)])
  }

  function MakeAll(r: Response, calls: seq<Call>): Response {
    if calls == [] then r else Make(MakeAll(r, calls[..|calls| - 1]), calls[|calls| - 1])
  }

  function RootOnly(root: seq<Attr>): Response {
    Response([Start("response", root)], "")
  }

  /** An error: its message, and what else is written of it. */
  datatype Failure = Failure(message: string, attrs: seq<Attr>)

  /** Close writes the result, Fail the error when there is one; both end the document. */
  datatype Ending = Close(stop: string, streamed: bool) | Fail(failure: Option<Failure>)

  function EndingOps(e: Ending): seq<Op> {
    match e
    case Close(stop, streamed) => [Empty("result", OptAttr("stop-reason", stop) + [Attr("streamed", if streamed then "true" else "false")])]
    case Fail(None) => []
    case Fail(Some(f)) => ElementOps("error", f.message, f.attrs)
  }

  function Finished(r: Response, e: Ending): seq<Op> {
    ClosePart(r).ops + EndingOps(e) + [End]
  }

  class ResponseWriter {
    const x: Writer
    var part: string
    ghost var ops: seq<Op>

    ghost predicate Valid()
      reads this, x
    {
      x.Valid() && x.Now() == WriteAll(Begun, ops)
    }

    ghost function Now(): Response
      reads this
    {
      Response(ops, part)
    }

    constructor (root: seq<Attr>)
      ensures Valid() && Now() == RootOnly(root) && fresh(x)
    {
      x := new Writer();
      part, ops := "", [Start("response", root)];
      new;
      WriteOne(Begun, Start("response", root));
      x.StartElement("response", root);
    }

    method End()
      requires Valid()
      modifies this`ops, x
      ensures Valid() && ops == old(ops) + [Op.End]
    {
      hide Write;
      WriteNext(Begun, ops, Op.End);
      x.EndElement();
      ops := ops + [Op.End];
    }

    method EndPart()
      requires Valid()
      modifies this, x
      ensures Valid() && Now() == ClosePart(old(Now()))
    {
      if part == "" {
        return;
      }
      End();
      part := "";
    }

    method BeginPart(name: string)
      requires Valid()
      modifies this, x
      ensures Valid() && Now() == OpenPart(old(Now()), name)
    {
      hide Write, WriteAll;
      if part == name {
        return;
      }
      EndPart();
      WriteNext(Begun, ops, Start(name, []));
      x.StartElement(name, []);
      part, ops := name, ops + [Start(name, [])];
    }

    method Text(delta: string) returns (failed: bool)
      requires Valid()
      modifies this, x
      ensures Valid() && Now() == Make(old(Now()), Delta(delta)) && failed == x.failed
    {
      hide Write, WriteAll;
      if delta == "" {
        return x.failed;
      }
      BeginPart("text");
      WriteNext(Begun, ops, Op.Text(delta));
      x.CharData(delta);
      ops := ops + [Op.Text(delta)];
      return x.failed;
    }

    method Think(delta: string) returns (failed: bool)
      requires Valid()
      modifies this, x
      ensures Valid() && Now() == Make(old(Now()), Reasoning(delta)) && failed == x.failed
    {
      hide Write, WriteAll;
      if delta == "" {
        return x.failed;
      }
      BeginPart("thinking");
      WriteNext(Begun, ops, Op.Text(delta));
      x.CharData(delta);
      ops := ops + [Op.Text(delta)];
      return x.failed;
    }

    /** PartOps after ClosePart. */
    method WritePart(p: M.Part) returns (failed: bool)
      requires Valid()
      modifies this, x
      ensures Valid() && Now() == Make(old(Now()), Part(p)) && failed == x.failed
    {
      hide PartOps, ClosePart, WriteAll, Write;
      EndPart();
      Play(PartOps(p));
      return x.failed;
    }

    /** Calls of the writer, one after another. */
    method Play(more: seq<Op>)
      requires Valid()
      modifies this`ops, x
      ensures Valid() && ops == old(ops) + more
    {
      hide Write, WriteAll;
      for i := 0 to |more|
        invariant Valid() && ops == old(ops) + more[..i]
      {
        WriteNext(Begun, ops, more[i]);
        match more[i] {
          case Start(name, attrs) => x.StartElement(name, attrs);
          case Empty(name, attrs) => x.EmptyElement(name, attrs);
          case Text(t) => x.CharData(t);
          case End => x.EndElement();
        }
        ops := ops + [more[i]];
        assert more[..i + 1] == more[..i] + [more[i]];
      }
      assert more[..|more|] == more;
    }

    method WriteReport(name: string, attrs: seq<Attr>) returns (failed: bool)
      requires Valid()
      modifies this, x
      ensures Valid() && Now() == Make(old(Now()), Report(name, attrs)) && failed == x.failed
    {
      hide ClosePart, WriteAll, Write;
      EndPart();
      Play([Empty(name, attrs)]);
      return x.failed;
    }

    method Finish(e: Ending) returns (failed: bool)
      requires Valid()
      modifies this, x
      ensures Valid() && ops == Finished(old(Now()), e) && failed == x.failed
    {
      hide ClosePart, EndingOps, WriteAll, Write;
      EndPart();
      Play(EndingOps(e));
      End();
      return x.failed;
    }
  }

  // --- every response is a document

  /** The document is unfinished, the root is open, and the part on top of it when there is one. */
  ghost predicate Open(r: Response) {
    Unfinished(r.ops) && r.ops != []
    && WriteAll(Begun, r.ops).open == ["response"] + (if r.part == "" then [] else [r.part])
  }

  lemma UnfinishedMore(ops: seq<Op>, op: Op)
    requires Unfinished(ops) && Safe(op) && Write(WriteAll(Begun, ops), op).open != []
    ensures Unfinished(ops + [op]) && WriteAll(Begun, ops + [op]).open == Write(WriteAll(Begun, ops), op).open
  {
    hide Write, Safe;
    var more := ops + [op];
    WriteNext(Begun, ops, op);
    forall i | 0 < i <= |more| ensures WriteAll(Begun, more[..i]).open != [] {
      if i <= |ops| {
        assert more[..i] == ops[..i];
      } else {
        assert more[..i] == more;
      }
    }
  }

  function Stacked(open: seq<string>, op: Op): seq<string> {
    match op
    case Start(name, _) => open + [name]
    case End => if open == [] then open else open[..|open| - 1]
    case _ => open
  }

  /** What a list of calls does to the open elements, however many there are below. */
  function Heights(open: seq<string>, ops: seq<Op>): seq<string> {
    if ops == [] then open else Stacked(Heights(open, ops[..|ops| - 1]), ops[|ops| - 1])
  }

  /** The stack never falls below its first so many elements. */
  predicate Above(open: seq<string>, ops: seq<Op>, n: nat) {
    forall i :: 0 <= i <= |ops| ==> |Heights(open, ops[..i])| >= n
  }

  lemma {:induction false} UnfinishedAll(r: seq<Op>, more: seq<Op>)
    requires Unfinished(r) && AllSafe(more) && Above(WriteAll(Begun, r).open, more, 1)
    ensures Unfinished(r + more) && WriteAll(Begun, r + more).open == Heights(WriteAll(Begun, r).open, more)
  {
    hide Unfinished, Safe, Heights, Above, WriteAll, Write, Stacked;
    if more == [] {
      HeightsMore(WriteAll(Begun, r).open, [], End);
      assert r + more == r;
    } else {
      var init, op := more[..|more| - 1], more[|more| - 1];
      var open := WriteAll(Begun, r).open;
      AboveFront(open, more, 1);
      UnfinishedAll(r, init);
      WriteStacks(WriteAll(Begun, r + init), op);
      UnfinishedMore(r + init, op);
      assert r + more == (r + init) + [op];
    }
  }

  lemma WriteStacks(d: Doc, op: Op)
    ensures Write(d, op).open == Stacked(d.open, op)
  {
  }

  lemma AboveFront(open: seq<string>, ops: seq<Op>, n: nat)
    requires Above(open, ops, n) && ops != []
    ensures Above(open, ops[..|ops| - 1], n)
    ensures Heights(open, ops) == Stacked(Heights(open, ops[..|ops| - 1]), ops[|ops| - 1]) && |Heights(open, ops)| >= n
  {
    var init := ops[..|ops| - 1];
    assert forall i :: 0 <= i <= |init| ==> init[..i] == ops[..i];
    assert ops[..|ops|] == ops;
  }

  lemma HeightsMore(open: seq<string>, ops: seq<Op>, op: Op)
    ensures Heights(open, []) == open
    ensures Heights(open, ops + [op]) == Stacked(Heights(open, ops), op)
  {
    assert (ops + [op])[..|ops|] == ops;
  }

  lemma AboveNone(open: seq<string>, n: nat)
    requires |open| >= n
    ensures Above(open, [], n)
  {
  }

  lemma AboveMore(open: seq<string>, ops: seq<Op>, op: Op, n: nat)
    requires Above(open, ops, n) && |Heights(open, ops + [op])| >= n
    ensures Above(open, ops + [op], n)
  {
    hide Heights;
    var more := ops + [op];
    forall i | 0 <= i <= |more| ensures |Heights(open, more[..i])| >= n {
      if i <= |ops| {
        assert more[..i] == ops[..i];
      } else {
        assert more[..i] == more;
      }
    }
  }

  /** Heights and lower bound together, one call further. */
  lemma Climb(open: seq<string>, ops: seq<Op>, h: seq<string>, op: Op, n: nat)
    requires Heights(open, ops) == h && Above(open, ops, n) && |Stacked(h, op)| >= n
    ensures Heights(open, ops + [op]) == Stacked(h, op) && Above(open, ops + [op], n)
  {
    hide Heights, Above, Stacked;
    HeightsMore(open, ops, op);
    AboveMore(open, ops, op, n);
  }

  /** A complete element, or one in another, leaves the stack as it was and never reaches below it. */
  predicate Balanced(ops: seq<Op>) {
    || (|ops| == 1 && (ops[0].Empty? || ops[0].Text?))
    || (|ops| == 3 && ops[0].Start? && ops[1].Text? && ops[2].End?)
    || (|ops| == 5 && ops[0].Start? && ops[1].Start? && ops[2].Text? && ops[3].End? && ops[4].End?)
  }

  lemma BalancedThree(open: seq<string>, a: Op, b: Op, c: Op)
    requires a.Start? && b.Text? && c.End?
    ensures Heights(open, [] + [a] + [b] + [c]) == open && Above(open, [] + [a] + [b] + [c], |open|)
  {
    hide Heights, Above;
    HeightsMore(open, [], a);
    AboveNone(open, |open|);
    Climb(open, [], open, a, |open|);
    Climb(open, [] + [a], open + [a.name], b, |open|);
    Climb(open, [] + [a] + [b], open + [a.name], c, |open|);
  }

  lemma BalancedFive(open: seq<string>, a: Op, b: Op, c: Op, d: Op, e: Op)
    requires a.Start? && b.Start? && c.Text? && d.End? && e.End?
    ensures Heights(open, [] + [a] + [b] + [c] + [d] + [e]) == open && Above(open, [] + [a] + [b] + [c] + [d] + [e], |open|)
  {
    hide Heights, Above;
    HeightsMore(open, [], a);
    AboveNone(open, |open|);
    Climb(open, [], open, a, |open|);
    Climb(open, [] + [a], open + [a.name], b, |open|);
    Climb(open, [] + [a] + [b], open + [a.name] + [b.name], c, |open|);
    Climb(open, [] + [a] + [b] + [c], open + [a.name] + [b.name], d, |open|);
    Climb(open, [] + [a] + [b] + [c] + [d], open + [a.name], e, |open|);
  }

  lemma BalancedKeeps(open: seq<string>, ops: seq<Op>)
    requires Balanced(ops)
    ensures Heights(open, ops) == open && Above(open, ops, |open|)
  {
    hide Heights, Above;
    if |ops| == 1 {
      HeightsMore(open, [], ops[0]);
      AboveNone(open, |open|);
      Climb(open, [], open, ops[0], |open|);
      assert [] + [ops[0]] == ops;
    } else if |ops| == 3 {
      BalancedThree(open, ops[0], ops[1], ops[2]);
      assert ops == [] + [ops[0]] + [ops[1]] + [ops[2]];
    } else {
      BalancedFive(open, ops[0], ops[1], ops[2], ops[3], ops[4]);
      assert ops == [] + [ops[0]] + [ops[1]] + [ops[2]] + [ops[3]] + [ops[4]];
    }
  }

  lemma NamesSafe()
    ensures SafeName("text") && SafeName("image") && SafeName("thinking") && SafeName("redacted-thinking")
    ensures SafeName("tool-call") && SafeName("arguments")
  {
  }

  lemma OptSafe(name: string, value: string)
    requires forall k :: 0 <= k < |name| ==> DocRead.NameChar(name[k])
    ensures SafeAttrs(OptAttr(name, value)) && SafeAttrs([Attr(name, value)])
  {
  }

  lemma SafeMore(a: seq<Attr>, b: seq<Attr>)
    requires SafeAttrs(a) && SafeAttrs(b)
    ensures SafeAttrs(a + b)
  {
  }

  lemma ElementBalanced(name: string, content: string, attrs: seq<Attr>)
    requires SafeName(name) && SafeAttrs(attrs)
    ensures Balanced(ElementOps(name, content, attrs)) && AllSafe(ElementOps(name, content, attrs))
  {
    hide SafeName, SafeAttrs;
  }

  lemma PartBalanced(p: M.Part)
    ensures Balanced(PartOps(p)) && AllSafe(PartOps(p))
  {
    hide SafeName, SafeAttrs, ElementOps, OptAttr;
    NamesSafe();
    NoAttrsSafe();
    match p
    case Text(_) =>
    case Image(media, data, src) =>
      OptSafe("media-type", media);
      OptSafe("src", src);
      SafeMore(OptAttr("media-type", media), OptAttr("src", src));
      ElementBalanced("image", data, OptAttr("media-type", media) + OptAttr("src", src));
    case Thinking(t, signature, id, raw) =>
      OptSafe("signature", signature);
      OptSafe("id", id);
      OptSafe("raw", "true");
      var some := OptAttr("signature", signature) + OptAttr("id", id);
      SafeMore(OptAttr("signature", signature), OptAttr("id", id));
      var last := if raw then [Attr("raw", "true")] else [];
      SafeMore(some, last);
      ElementBalanced("thinking", t, some + last);
    case Redacted(data) => ElementBalanced("redacted-thinking", data, []);
    case Call(id, name, _) =>
      OptSafe("id", id);
      OptSafe("name", name);
      SafeMore(OptAttr("id", id), OptAttr("name", name));
  }

  lemma NoAttrsSafe()
    ensures SafeAttrs([])
  {
  }

  predicate SafeCall(c: Call) {
    c.Report? ==> SafeName(c.name) && SafeAttrs(c.attrs)
  }

  predicate SafeCalls(calls: seq<Call>) {
    forall i :: 0 <= i < |calls| ==> SafeCall(calls[i])
  }

  lemma OpenAdds(r: Response, more: seq<Op>)
    requires Open(r) && Balanced(more) && AllSafe(more)
    ensures Open(Add(r, more))
  {
    hide Unfinished, WriteAll, Heights, Balanced;
    var open := WriteAll(Begun, r.ops).open;
    BalancedKeeps(open, more);
    UnfinishedAll(r.ops, more);
  }

  lemma OpenCloses(r: Response)
    requires Open(r)
    ensures Open(ClosePart(r))
  {
    if r.part != "" {
      hide Unfinished, WriteAll;
      UnfinishedMore(r.ops, End);
    }
  }

  lemma OpenOpens(r: Response, name: string)
    requires Open(r) && SafeName(name)
    ensures Open(OpenPart(r, name))
  {
    hide Unfinished, WriteAll;
    OpenCloses(r);
    if r.part != name {
      UnfinishedMore(ClosePart(r).ops, Start(name, []));
    }
  }

  lemma OpenMakes(r: Response, c: Call)
    requires Open(r) && SafeCall(c)
    ensures Open(Make(r, c))
  {
    hide Open, ClosePart, OpenPart, PartOps;
    OpenCloses(r);
    match c
    case Delta(t) =>
      if t != "" {
        OpenOpens(r, "text");
        OpenAdds(OpenPart(r, "text"), [Op.Text(t)]);
      }
    case Reasoning(t) =>
      if t != "" {
        OpenOpens(r, "thinking");
        OpenAdds(OpenPart(r, "thinking"), [Op.Text(t)]);
      }
    case Part(p) =>
      PartBalanced(p);
      OpenAdds(ClosePart(r), PartOps(p));
    case Report(name, attrs) =>
      OpenAdds(ClosePart(r), [Empty(name, attrs)]);
  }

  lemma OpenAtFirst(root: seq<Attr>)
    requires SafeAttrs(root)
    ensures Open(RootOnly(root))
  {
    var op := Start("response", root);
    assert SafeName("response");
    WriteOne(Begun, op);
    assert WriteAll(Begun, []) == Begun;
    assert Unfinished([]);
    UnfinishedMore([], op);
    assert [] + [op] == [op];
  }

  /** However the parts of a response stream, its root stays open, with the part that takes text on top of it. */
  lemma {:induction false} StreamStaysOpen(root: seq<Attr>, calls: seq<Call>)
    requires SafeAttrs(root) && SafeCalls(calls)
    ensures Open(MakeAll(RootOnly(root), calls))
  {
    hide Open, Make, SafeCall;
    if calls == [] {
      OpenAtFirst(root);
    } else {
      var init := calls[..|calls| - 1];
      assert SafeCalls(init);
      StreamStaysOpen(root, init);
      OpenMakes(MakeAll(RootOnly(root), init), calls[|calls| - 1]);
    }
  }

  predicate SafeEnding(e: Ending) {
    e.Fail? && e.failure.Some? ==> SafeAttrs(e.failure.value.attrs)
  }

  lemma EndingBalanced(e: Ending)
    requires SafeEnding(e)
    ensures (EndingOps(e) == [] || Balanced(EndingOps(e))) && AllSafe(EndingOps(e))
  {
    hide SafeName, SafeAttrs, ElementOps, OptAttr;
    EndNamesSafe();
    match e
    case Close(stop, streamed) =>
      var flag := if streamed then "true" else "false";
      OptSafe("stop-reason", stop);
      OptSafe("streamed", flag);
      SafeMore(OptAttr("stop-reason", stop), [Attr("streamed", flag)]);
    case Fail(None) =>
    case Fail(Some(f)) => ElementBalanced("error", f.message, f.attrs);
  }

  lemma EndNamesSafe()
    ensures SafeName("result") && SafeName("error")
    ensures (forall k :: 0 <= k < |"stop-reason"| ==> DocRead.NameChar("stop-reason"[k])) && forall k :: 0 <= k < |"streamed"| ==> DocRead.NameChar("streamed"[k])
  {
  }

  /** Every response that is ended, whether it succeeded or failed, is exactly one document. */
  lemma EveryResponseIsADocument(root: seq<Attr>, calls: seq<Call>, e: Ending)
    requires SafeAttrs(root) && SafeCalls(calls) && SafeEnding(e)
    ensures Whole(Finished(MakeAll(RootOnly(root), calls), e))
    ensures DocRead.IsDocument(WriteAll(Begun, Finished(MakeAll(RootOnly(root), calls), e)).bytes)
  {
    hide Make, SafeCall, Unfinished, WriteAll, DocRead.IsDocument, EndingOps, Balanced, Safe;
    var r := MakeAll(RootOnly(root), calls);
    StreamStaysOpen(root, calls);
    OpenCloses(r);
    EndingBalanced(e);
    if EndingOps(e) == [] {
      assert Add(ClosePart(r), []) == ClosePart(r);
    } else {
      OpenAdds(ClosePart(r), EndingOps(e));
    }
    EndIsWhole(Add(ClosePart(r), EndingOps(e)));
    WholeDocument(Finished(r, e));
  }

  lemma EndIsWhole(r: Response)
    requires Open(r) && r.part == ""
    ensures Whole(r.ops + [End])
  {
    hide WriteAll;
    var ops := r.ops + [End];
    assert ops[..|ops| - 1] == r.ops;
    assert Safe(End);
  }

  // --- deltas and whole parts

  /** A delta of a text part, or of a thinking part. */
  function Piece(think: bool, t: string): Call {
    if think then Reasoning(t) else Delta(t)
  }

  function PartName(think: bool): string {
    if think then "thinking" else "text"
  }

  /** The part that was written whole. */
  function WholePart(think: bool, t: string): M.Part {
    if think then M.Thinking(t, "", "", false) else M.Text(t)
  }

  lemma PieceMakes(r: Response, think: bool, t: string)
    requires t != ""
    ensures Make(r, Piece(think, t)) == Add(OpenPart(r, PartName(think)), [Op.Text(t)])
    ensures Make(r, Piece(think, t)).part == PartName(think)
  {
  }

  /** The bytes do not tell how a part was cut: two deltas write what their concatenation writes, when the first ends
      between characters. */
  lemma DeltasAreOne(r: Response, think: bool, a: string, b: string)
    requires a != "" && b != "" && ValidText(a)
    ensures WriteAll(Begun, Make(Make(r, Piece(think, a)), Piece(think, b)).ops) == WriteAll(Begun, Make(r, Piece(think, a + b)).ops)
    ensures Make(Make(r, Piece(think, a)), Piece(think, b)).part == Make(r, Piece(think, a + b)).part
  {
    hide WriteAll, Escaped, ClosePart, Make, Piece;
    PieceMakes(r, think, a);
    PieceMakes(Make(r, Piece(think, a)), think, b);
    PieceMakes(r, think, a + b);
    TextsJoin(OpenPart(r, PartName(think)).ops, a, b);
  }

  lemma TextsJoin(ops: seq<Op>, a: string, b: string)
    requires ValidText(a)
    ensures WriteAll(Begun, ops + [Op.Text(a)] + [Op.Text(b)]) == WriteAll(Begun, ops + [Op.Text(a + b)])
  {
    hide WriteAll, Escaped;
    var d := WriteAll(Begun, ops);
    WriteNext(Begun, ops, Op.Text(a));
    WriteNext(Begun, ops + [Op.Text(a)], Op.Text(b));
    WriteNext(Begun, ops, Op.Text(a + b));
    EscapedConcat(a, b, false);
    assert d.bytes + Escaped(a, false) + Escaped(b, false) == d.bytes + (Escaped(a, false) + Escaped(b, false));
  }

  function AllText(deltas: seq<string>): string {
    if deltas == [] then "" else AllText(deltas[..|deltas| - 1]) + deltas[|deltas| - 1]
  }

  function Pieces(think: bool, deltas: seq<string>): (calls: seq<Call>)
    ensures |calls| == |deltas|
  {
    if deltas == [] then [] else Pieces(think, deltas[..|deltas| - 1]) + [Piece(think, deltas[|deltas| - 1])]
  }

  lemma MakeNext(r: Response, calls: seq<Call>, c: Call)
    ensures MakeAll(r, calls + [c]) == Make(MakeAll(r, calls), c)
    ensures MakeAll(r, []) == r
  {
    assert (calls + [c])[..|calls|] == calls;
  }

  lemma {:induction false} DeltasAreWhole(r: Response, think: bool, deltas: seq<string>)
    requires deltas != [] && forall i :: 0 <= i < |deltas| ==> deltas[i] != "" && ValidText(deltas[i])
    ensures WriteAll(Begun, MakeAll(r, Pieces(think, deltas)).ops) == WriteAll(Begun, Make(r, Piece(think, AllText(deltas))).ops)
    ensures MakeAll(r, Pieces(think, deltas)).part == PartName(think) && AllText(deltas) != "" && ValidText(AllText(deltas))
  {
    hide WriteAll, ValidText, Write, Make, Piece, MakeAll;
    var init, last := deltas[..|deltas| - 1], deltas[|deltas| - 1];
    MakeNext(r, Pieces(think, init), Piece(think, last));
    if init == [] {
      assert AllText(init) == "" && "" + last == last && Pieces(think, init) == [];
      MakeNext(r, [], Piece(think, last));
      PieceMakes(r, think, last);
    } else {
      DeltasAreWhole(r, think, init);
      DeltasAreOne(r, think, AllText(init), last);
      PieceMakes(r, think, AllText(init));
      SameBytesNext(MakeAll(r, Pieces(think, init)), Make(r, Piece(think, AllText(init))), think, last);
      ValidConcat(AllText(init), last);
    }
  }

  lemma SameBytesNext(r: Response, q: Response, think: bool, t: string)
    requires r.part == PartName(think) && q.part == PartName(think) && t != "" && WriteAll(Begun, r.ops) == WriteAll(Begun, q.ops)
    ensures WriteAll(Begun, Make(r, Piece(think, t)).ops) == WriteAll(Begun, Make(q, Piece(think, t)).ops)
    ensures Make(r, Piece(think, t)).part == PartName(think)
  {
    hide WriteAll, Write;
    WriteNext(Begun, r.ops, Op.Text(t));
    WriteNext(Begun, q.ops, Op.Text(t));
  }

  /** A part that streamed reads, once it is closed, like the part written whole. */
  lemma StreamedPartIsWhole(r: Response, think: bool, deltas: seq<string>)
    requires r.part == "" && deltas != [] && forall i :: 0 <= i < |deltas| ==> deltas[i] != "" && ValidText(deltas[i])
    ensures WriteAll(Begun, ClosePart(MakeAll(r, Pieces(think, deltas))).ops)
            == WriteAll(Begun, Make(r, Part(WholePart(think, AllText(deltas)))).ops)
  {
    hide WriteAll, Write, ValidText, MakeAll, Pieces, AllText;
    var t := AllText(deltas);
    DeltasAreWhole(r, think, deltas);
    var streamed, whole := MakeAll(r, Pieces(think, deltas)).ops, Make(r, Piece(think, t)).ops;
    WriteNext(Begun, streamed, End);
    WriteNext(Begun, whole, End);
    WholeOps(r, think, t);
  }

  lemma WholeOps(r: Response, think: bool, t: string)
    requires r.part == "" && t != ""
    ensures Make(r, Part(WholePart(think, t))).ops == Make(r, Piece(think, t)).ops + [End]
  {
    var three := [Start(PartName(think), []), Op.Text(t), End];
    assert OptAttr("signature", "") + OptAttr("id", "") + [] == [];
    assert PartOps(WholePart(think, t)) == three;
    assert r.ops + [Start(PartName(think), [])] + [Op.Text(t)] + [End] == r.ops + three;
  }
}
