/** The document that a response is, as a tree, and that it is a document of the grammar (core/xmlstream.go). */
module XmlTrees {
  import opened Wrappers
  import opened Escaping
  import opened XmlWrite
  import opened XmlStream
  import G = DocGrammar
  import M = Messages
  import DocRead

  /** An element with what is in it, an element with nothing in it, or text. */
  datatype Node = Words(words: string) | Leaf(name: string, attrs: seq<Attr>) | Branch(name: string, attrs: seq<Attr>, kids: seq<Node>)

  // --- as markup

  function AttrOf(a: Attr): G.Attr {
    G.Attr(" ", a.name, "", "", '"', Escaped(a.value, true))
  }

  function AttrsOf(attrs: seq<Attr>): (r: seq<G.Attr>)
    ensures |r| == |attrs| && forall i :: 0 <= i < |attrs| ==> r[i] == AttrOf(attrs[i])
  {
    if attrs == [] then [] else AttrsOf(attrs[..|attrs| - 1]) + [AttrOf(attrs[|attrs| - 1])]
  }

  function TagOf(name: string, attrs: seq<Attr>): G.Tag {
    G.Tag(name, AttrsOf(attrs), "")
  }

  /** Text and attribute values are escaped, and nothing else is. */
  function MarkupOf(n: Node): G.Markup {
    match n
    case Words(t) => G.Text(Escaped(t, false))
    case Leaf(name, attrs) => G.Empty(TagOf(name, attrs))
    case Branch(name, attrs, kids) => G.Element(TagOf(name, attrs), seq(|kids|, i requires 0 <= i < |kids| => MarkupOf(kids[i])), "")
  }

  /** Nodes side by side. */
  function Bytes(ns: seq<Node>): string {
    if ns == [] then "" else Bytes(ns[..|ns| - 1]) + G.Print(MarkupOf(ns[|ns| - 1]))
  }

  /** A document with this root, as the writer begins one. */
  function DocOf(root: Node): G.Doc {
    G.Doc([G.Instruction("xml version=\"1.1\" encoding=\"UTF-8\""), G.Text("\n")], MarkupOf(root))
  }

  lemma {:induction false} AttrsPrinted(attrs: seq<Attr>)
    ensures G.AttrsText(AttrsOf(attrs)) == AttrsText(attrs)
  {
    if attrs != [] {
      var init, a := attrs[..|attrs| - 1], attrs[|attrs| - 1];
      AttrsPrinted(init);
      assert AttrsOf(attrs)[..|attrs| - 1] == AttrsOf(init);
      AttrPrinted(a);
    }
  }

  lemma AttrPrinted(a: Attr)
    ensures G.AttrText(AttrOf(a)) == AttrText(a)
  {
    hide Escaped;
    var v := Escaped(a.value, true);
    assert " " + a.name + "" + "=" + "" + ['"'] + v + ['"'] == " " + a.name + "=\"" + v + "\"";
  }

  lemma TagPrinted(name: string, attrs: seq<Attr>)
    ensures G.TagText(TagOf(name, attrs)) + ">" == StartText(name, attrs)
    ensures G.TagText(TagOf(name, attrs)) + "/>" == EmptyText(name, attrs)
  {
    AttrsPrinted(attrs);
    assert "<" + name + AttrsText(attrs) + "" == "<" + name + AttrsText(attrs);
  }

  /** A node is its start tag, what is in it, and its end tag. */
  lemma {:induction false} NodePrinted(n: Node)
    ensures n.Words? ==> G.Print(MarkupOf(n)) == Escaped(n.words, false)
    ensures n.Leaf? ==> G.Print(MarkupOf(n)) == EmptyText(n.name, n.attrs)
    ensures n.Branch? ==> G.Print(MarkupOf(n)) == StartText(n.name, n.attrs) + Bytes(n.kids) + EndText(n.name)
  {
    hide Escaped, StartText, EmptyText, G.TagText, Bytes;
    match n
    case Words(t) =>
    case Leaf(name, attrs) => TagPrinted(name, attrs);
    case Branch(name, attrs, kids) =>
      TagPrinted(name, attrs);
      KidsPrinted(n, |kids|);
      assert kids[..|kids|] == kids;
      assert "</" + name + "" + ">" == EndText(name);
      var head, body := G.TagText(TagOf(name, attrs)) + ">", Bytes(kids);
      assert head + body + "</" + name + "" + ">" == head + body + ("</" + name + "" + ">");
  }

  lemma {:induction false} KidsPrinted(n: Node, k: nat)
    requires n.Branch? && k <= |n.kids|
    ensures G.PrintItems(MarkupOf(n), k) == Bytes(n.kids[..k])
  {
    if k > 0 {
      hide G.Print;
      KidsPrinted(n, k - 1);
      assert n.kids[..k][..k - 1] == n.kids[..k - 1];
    }
  }

  // --- the response as a tree

  function PartNode(p: M.Part): Node {
    match p
    case Text(t) => Branch("text", [], [Words(t)])
    case Image(media, data, src) => Holding("image", OptAttr("media-type", media) + OptAttr("src", src), data)
    case Thinking(t, signature, id, raw) =>
      Holding("thinking", OptAttr("signature", signature) + OptAttr("id", id) + (if raw then [Attr("raw", "true")] else []), t)
    case Redacted(data) => Holding("redacted-thinking", [], data)
    case Call(id, name, args) =>
      Branch("tool-call", OptAttr("id", id) + OptAttr("name", name), [Branch("arguments", [], [Words(args)])])
  }

  /** An element that holds this text, when there is any. */
  function Holding(name: string, attrs: seq<Attr>, text: string): Node {
    if text == "" then Leaf(name, attrs) else Branch(name, attrs, [Words(text)])
  }

  /** What the root holds so far: nodes that are complete, and an element that still takes text. */
  datatype Kids = Kids(done: seq<Node>, open: Option<(string, seq<Node>)>)

  function Ended(k: Kids): seq<Node> {
    k.done + if k.open.Some? then [Branch(k.open.value.0, [], k.open.value.1)] else []
  }

  /** A delta goes into the open element of its kind, or a new one. */
  function Heard(k: Kids, name: string, text: string): Kids {
    if text == "" then k
    else if k.open.Some? && k.open.value.0 == name then k.(open := Some((name, k.open.value.1 + [Words(text)])))
    else Kids(Ended(k), Some((name, [Words(text)])))
  }

  function Told(k: Kids, c: Call): Kids {
    match c
    case Delta(t) => Heard(k, "text", t)
    case Reasoning(t) => Heard(k, "thinking", t)
    case Part(p) => Kids(Ended(k) + [PartNode(p)], None)
    case Report(name, attrs) => Kids(Ended(k) + [Leaf(name, attrs)], None)
  }

  function KidsOf(calls: seq<Call>): Kids {
    if calls == [] then Kids([], None) else Told(KidsOf(calls[..|calls| - 1]), calls[|calls| - 1])
  }

  /** The last child: the result, or what failed. */
  function Last(e: Ending): seq<Node> {
    match e
    case Close(stop, streamed) => [Leaf("result", OptAttr("stop-reason", stop) + [Attr("streamed", if streamed then "true" else "false")])]
    case Fail(None) => []
    case Fail(Some(f)) => [Holding("error", f.attrs, f.message)]
  }

  function Tree(root: seq<Attr>, calls: seq<Call>, e: Ending): Node {
    Branch("response", root, Ended(KidsOf(calls)) + Last(e))
  }

  // --- the writer writes it

  lemma {:induction false} WriteOn(d: Doc, a: seq<Op>, b: seq<Op>)
    ensures WriteAll(d, a + b) == WriteAll(WriteAll(d, a), b)
  {
    if b == [] {
      assert a + b == a;
    } else {
      hide Write;
      WriteOn(d, a, b[..|b| - 1]);
      assert (a + b)[..|a + b| - 1] == a + b[..|b| - 1];
    }
  }

  lemma {:induction false} BytesSnoc(ns: seq<Node>, n: Node)
    ensures Bytes(ns + [n]) == Bytes(ns) + G.Print(MarkupOf(n)) && Bytes([]) == ""
  {
    hide G.Print;
    assert (ns + [n])[..|ns|] == ns;
  }

  lemma {:induction false} BytesOne(n: Node)
    ensures Bytes([n]) == G.Print(MarkupOf(n))
  {
    hide Bytes;
    BytesSnoc([], n);
    assert [] + [n] == [n];
  }

  lemma {:induction false} BranchWritten(d: Doc, name: string, attrs: seq<Attr>, ops: seq<Op>, kid: Node)
    requires WriteAll(Doc(d.bytes + StartText(name, attrs), d.open + [name]), ops)
          == Doc(d.bytes + StartText(name, attrs) + G.Print(MarkupOf(kid)), d.open + [name])
    ensures WriteAll(d, [Start(name, attrs)] + ops + [End]) == Doc(d.bytes + G.Print(MarkupOf(Branch(name, attrs, [kid]))), d.open)
  {
    hide Bytes, StartText, EndText, G.Print, MarkupOf, WriteAll;
    WriteOn(d, [Start(name, attrs)] + ops, [End]);
    WriteOn(d, [Start(name, attrs)], ops);
    WriteOne(d, Start(name, attrs));
    var e := Doc(d.bytes + StartText(name, attrs) + G.Print(MarkupOf(kid)), d.open + [name]);
    WriteOne(e, End);
    assert (d.open + [name])[..|d.open|] == d.open;
    NodePrinted(Branch(name, attrs, [kid]));
    BytesOne(kid);
    assert d.bytes + StartText(name, attrs) + G.Print(MarkupOf(kid)) + EndText(name)
        == d.bytes + (StartText(name, attrs) + G.Print(MarkupOf(kid)) + EndText(name));
  }

  lemma {:induction false} WordsWritten(d: Doc, t: string)
    ensures WriteAll(d, [Op.Text(t)]) == Doc(d.bytes + G.Print(MarkupOf(Words(t))), d.open)
  {
    hide G.Print, MarkupOf, WriteAll, Escaped;
    WriteOne(d, Op.Text(t));
    NodePrinted(Words(t));
  }

  lemma {:induction false} LeafWritten(d: Doc, name: string, attrs: seq<Attr>)
    ensures WriteAll(d, [Empty(name, attrs)]) == Doc(d.bytes + G.Print(MarkupOf(Leaf(name, attrs))), d.open)
  {
    hide G.Print, MarkupOf, WriteAll, EmptyText;
    WriteOne(d, Empty(name, attrs));
    NodePrinted(Leaf(name, attrs));
  }

  lemma {:induction false} HoldingWritten(d: Doc, name: string, text: string, attrs: seq<Attr>)
    ensures WriteAll(d, ElementOps(name, text, attrs)) == Doc(d.bytes + G.Print(MarkupOf(Holding(name, attrs, text))), d.open)
  {
    hide G.Print, MarkupOf, WriteAll, StartText;
    if text == "" {
      LeafWritten(d, name, attrs);
    } else {
      WordsWritten(Doc(d.bytes + StartText(name, attrs), d.open + [name]), text);
      BranchWritten(d, name, attrs, [Op.Text(text)], Words(text));
      assert [Start(name, attrs)] + [Op.Text(text)] + [End] == ElementOps(name, text, attrs);
    }
  }

  lemma {:induction false} PartWritten(d: Doc, p: M.Part)
    ensures WriteAll(d, PartOps(p)) == Doc(d.bytes + G.Print(MarkupOf(PartNode(p))), d.open)
  {
    hide G.Print, MarkupOf, WriteAll, StartText, ElementOps, OptAttr;
    match p
    case Text(t) =>
      WordsWritten(Doc(d.bytes + StartText("text", []), d.open + ["text"]), t);
      BranchWritten(d, "text", [], [Op.Text(t)], Words(t));
      assert [Start("text", [])] + [Op.Text(t)] + [End] == PartOps(p);
    case Image(media, data, src) => HoldingWritten(d, "image", data, OptAttr("media-type", media) + OptAttr("src", src));
    case Thinking(t, signature, id, raw) =>
      HoldingWritten(d, "thinking", t, OptAttr("signature", signature) + OptAttr("id", id) + if raw then [Attr("raw", "true")] else []);
    case Redacted(data) => HoldingWritten(d, "redacted-thinking", data, []);
    case Call(id, name, args) =>
      var attrs := OptAttr("id", id) + OptAttr("name", name);
      var e := Doc(d.bytes + StartText("tool-call", attrs), d.open + ["tool-call"]);
      WordsWritten(Doc(e.bytes + StartText("arguments", []), e.open + ["arguments"]), args);
      BranchWritten(e, "arguments", [], [Op.Text(args)], Words(args));
      BranchWritten(d, "tool-call", attrs, [Start("arguments", [])] + [Op.Text(args)] + [End], Branch("arguments", [], [Words(args)]));
      assert [Start("tool-call", attrs)] + ([Start("arguments", [])] + [Op.Text(args)] + [End]) + [End] == PartOps(p);
  }

  // --- a response under way

  /** What the writer has written of the open element. */
  function OpenBytes(k: Kids): string {
    if k.open.Some? then StartText(k.open.value.0, []) + Bytes(k.open.value.1) else ""
  }

  /** The writer holds the root's start tag and what the tree holds so far, the open element last. */
  ghost predicate Agrees(root: seq<Attr>, r: Response, k: Kids) {
    && (k.open.Some? ==> k.open.value.0 != "") && r.part == (if k.open.Some? then k.open.value.0 else "")
    && WriteAll(Begun, r.ops)
       == Doc(Declaration() + StartText("response", root) + Bytes(k.done) + OpenBytes(k), ["response"] + if k.open.Some? then [k.open.value.0] else [])
  }

  lemma {:induction false} AgreesClosed(root: seq<Attr>, r: Response, k: Kids)
    requires Agrees(root, r, k)
    ensures Agrees(root, ClosePart(r), Kids(Ended(k), None))
  {
    hide WriteAll, Bytes, StartText, EndText, G.Print, MarkupOf;
    if k.open.None? {
      assert k.done + [] == k.done;
    } else {
      var name, kids := k.open.value.0, k.open.value.1;
      var b := Branch(name, [], kids);
      WriteNext(Begun, r.ops, End);
      assert (["response"] + [name])[..1] == ["response"];
      BytesSnoc(k.done, b);
      NodePrinted(b);
      var front := Declaration() + StartText("response", root) + Bytes(k.done);
      assert front + (StartText(name, []) + Bytes(kids)) + EndText(name) == front + (StartText(name, []) + Bytes(kids) + EndText(name));
      assert front + G.Print(MarkupOf(b)) + "" == Declaration() + StartText("response", root) + (Bytes(k.done) + G.Print(MarkupOf(b)));
    }
  }

  /** Something whole joins, where no element is open. */
  lemma {:induction false} AgreesAdded(root: seq<Attr>, r: Response, k: Kids, ops: seq<Op>, n: Node)
    requires Agrees(root, r, k) && k.open.None?
    requires var d := WriteAll(Begun, r.ops); WriteAll(d, ops) == Doc(d.bytes + G.Print(MarkupOf(n)), d.open)
    ensures Agrees(root, Add(r, ops), Kids(k.done + [n], None))
  {
    hide WriteAll, Bytes, StartText, G.Print, MarkupOf;
    WriteOn(Begun, r.ops, ops);
    BytesSnoc(k.done, n);
    var front := Declaration() + StartText("response", root);
    assert front + Bytes(k.done) + "" + G.Print(MarkupOf(n)) == front + (Bytes(k.done) + G.Print(MarkupOf(n))) + "";
  }

  lemma {:induction false} AgreesOpened(root: seq<Attr>, r: Response, k: Kids, name: string)
    requires Agrees(root, r, k) && name != "" && r.part != name
    ensures Agrees(root, OpenPart(r, name), Kids(Ended(k), Some((name, []))))
  {
    hide WriteAll, Bytes, StartText;
    AgreesClosed(root, r, k);
    var t, d := ClosePart(r), Ended(k);
    WriteNext(Begun, t.ops, Start(name, []));
    assert Bytes([]) == "" by {
      BytesSnoc([], Words(""));
    }
    var front := Declaration() + StartText("response", root) + Bytes(d);
    assert front + "" + StartText(name, []) == front + (StartText(name, []) + "");
    assert ["response"] + [] + [name] == ["response"] + [name];
  }

  lemma {:induction false} AgreesWords(root: seq<Attr>, r: Response, k: Kids, t: string)
    requires Agrees(root, r, k) && k.open.Some?
    ensures Agrees(root, Add(r, [Op.Text(t)]), k.(open := Some((k.open.value.0, k.open.value.1 + [Words(t)]))))
  {
    hide WriteAll, Bytes, StartText, G.Print, MarkupOf;
    var d := WriteAll(Begun, r.ops);
    WriteOn(Begun, r.ops, [Op.Text(t)]);
    WordsWritten(d, t);
    BytesSnoc(k.open.value.1, Words(t));
    var front := Declaration() + StartText("response", root) + Bytes(k.done);
    var start, kids, more := StartText(k.open.value.0, []), Bytes(k.open.value.1), G.Print(MarkupOf(Words(t)));
    assert front + (start + kids) + more == front + (start + (kids + more));
  }

  lemma {:induction false} AgreesHeard(root: seq<Attr>, r: Response, k: Kids, name: string, t: string)
    requires Agrees(root, r, k) && name != "" && t != ""
    ensures Agrees(root, Add(OpenPart(r, name), [Op.Text(t)]), Heard(k, name, t))
  {
    hide Agrees, Ended;
    assert r.part == (if k.open.Some? then k.open.value.0 else "") && (k.open.Some? ==> k.open.value.0 != "") by {
      AgreesPart(root, r, k);
    }
    if r.part == name {
      AgreesWords(root, r, k, t);
    } else {
      AgreesOpened(root, r, k, name);
      AgreesWords(root, OpenPart(r, name), Kids(Ended(k), Some((name, []))), t);
      assert [] + [Words(t)] == [Words(t)];
    }
  }

  lemma AgreesPart(root: seq<Attr>, r: Response, k: Kids)
    requires Agrees(root, r, k)
    ensures r.part == (if k.open.Some? then k.open.value.0 else "") && (k.open.Some? ==> k.open.value.0 != "")
  {
  }

  lemma {:induction false} AgreesMade(root: seq<Attr>, r: Response, k: Kids, c: Call)
    requires Agrees(root, r, k)
    ensures Agrees(root, Make(r, c), Told(k, c))
  {
    hide Agrees, OpenPart, Heard, Ended, PartOps, PartNode, ClosePart;
    match c
    case Delta(t) =>
      if t != "" {
        AgreesHeard(root, r, k, "text", t);
      } else {
        HeardNothing(k, "text");
      }
    case Reasoning(t) =>
      if t != "" {
        AgreesHeard(root, r, k, "thinking", t);
      } else {
        HeardNothing(k, "thinking");
      }
    case Part(p) =>
      AgreesClosed(root, r, k);
      PartWritten(WriteAll(Begun, ClosePart(r).ops), p);
      AgreesAdded(root, ClosePart(r), Kids(Ended(k), None), PartOps(p), PartNode(p));
    case Report(name, attrs) =>
      AgreesClosed(root, r, k);
      LeafWritten(WriteAll(Begun, ClosePart(r).ops), name, attrs);
      AgreesAdded(root, ClosePart(r), Kids(Ended(k), None), [Empty(name, attrs)], Leaf(name, attrs));
  }

  lemma HeardNothing(k: Kids, name: string)
    ensures Heard(k, name, "") == k
  {
  }

  lemma {:induction false} AgreesAll(root: seq<Attr>, calls: seq<Call>)
    ensures Agrees(root, MakeAll(RootOnly(root), calls), KidsOf(calls))
  {
    hide Agrees, Make, Told;
    if calls == [] {
      AgreesFirst(root);
    } else {
      AgreesAll(root, calls[..|calls| - 1]);
      AgreesMade(root, MakeAll(RootOnly(root), calls[..|calls| - 1]), KidsOf(calls[..|calls| - 1]), calls[|calls| - 1]);
    }
  }

  lemma {:induction false} AgreesFirst(root: seq<Attr>)
    ensures Agrees(root, RootOnly(root), Kids([], None))
  {
    hide WriteAll, StartText;
    WriteOne(Begun, Start("response", root));
    BytesSnoc([], Words(""));
    var s := Declaration() + StartText("response", root);
    assert s + "" + "" == s;
    assert [] + ["response"] == ["response"] + [];
  }

  /** With the last child, and then the root closed. */
  lemma {:induction false} AgreesLast(root: seq<Attr>, r: Response, ns: seq<Node>, e: Ending)
    requires Agrees(root, r, Kids(ns, None))
    ensures Agrees(root, Add(r, EndingOps(e)), Kids(ns + Last(e), None))
  {
    hide Agrees, WriteAll, ElementOps, OptAttr;
    var d := WriteAll(Begun, r.ops);
    match e
    case Close(stop, streamed) =>
      var attrs := OptAttr("stop-reason", stop) + [Attr("streamed", if streamed then "true" else "false")];
      LeafWritten(d, "result", attrs);
      AgreesAdded(root, r, Kids(ns, None), [Empty("result", attrs)], Leaf("result", attrs));
    case Fail(None) =>
      assert ns + [] == ns && r.ops + [] == r.ops;
    case Fail(Some(f)) =>
      HoldingWritten(d, "error", f.message, f.attrs);
      AgreesAdded(root, r, Kids(ns, None), ElementOps("error", f.message, f.attrs), Holding("error", f.attrs, f.message));
  }

  lemma {:induction false} RootClosed(root: seq<Attr>, r: Response, ns: seq<Node>)
    requires Agrees(root, r, Kids(ns, None))
    ensures WriteAll(Begun, r.ops + [End]) == Doc(Declaration() + G.Print(MarkupOf(Branch("response", root, ns))), [])
  {
    hide WriteAll, Bytes, StartText, EndText, G.Print, MarkupOf;
    WriteNext(Begun, r.ops, End);
    NodePrinted(Branch("response", root, ns));
    assert ["response"][..0] == [] && ["response"] + [] == ["response"];
    var s, b, e := StartText("response", root), Bytes(ns), EndText("response");
    assert Declaration() + s + b + "" + e == Declaration() + (s + b + e);
  }

  /** Whatever is streamed, the bytes of an ended response are those of one tree: each run of deltas of one kind is an
      element with their texts, each part is its own, and the result or the error comes last. */
  lemma ResponseIsTree(root: seq<Attr>, calls: seq<Call>, e: Ending)
    ensures WriteAll(Begun, Finished(MakeAll(RootOnly(root), calls), e)).bytes == G.DocText(DocOf(Tree(root, calls, e)))
  {
    hide Agrees, WriteAll, MakeAll, KidsOf, Last, EndingOps, Ended, G.Print, MarkupOf, ClosePart;
    var r, k := MakeAll(RootOnly(root), calls), KidsOf(calls);
    AgreesAll(root, calls);
    AgreesClosed(root, r, k);
    AgreesLast(root, ClosePart(r), Ended(k), e);
    RootClosed(root, Add(ClosePart(r), EndingOps(e)), Ended(k) + Last(e));
    DeclarationPrinted(MarkupOf(Tree(root, calls, e)));
  }

  lemma DeclarationPrinted(root: G.Markup)
    ensures G.DocText(G.Doc([G.Instruction("xml version=\"1.1\" encoding=\"UTF-8\""), G.Text("\n")], root)) == Declaration() + G.Print(root)
  {
    var i, t := G.Instruction("xml version=\"1.1\" encoding=\"UTF-8\""), G.Text("\n");
    assert [i, t][..1] == [i] && [i][..0] == [];
    assert G.PrologText([i]) == "" + G.Print(i);
    assert G.PrologText([i, t]) == G.PrologText([i]) + "\n";
    assert "<?" + DeclBody + "?>" + "\n" == Declaration();
  }
}
