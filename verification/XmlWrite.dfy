/** The XML writer: a stack of open elements, and an escaper in front of everything a caller supplies
    (core/xmlwrite.go). The reader that finds the end of a document agrees with it byte for byte. */
module XmlWrite {
  import opened Wrappers
  import opened Utf8
  import opened Escaping
  import opened DocRead

  const DeclBody := "xml version=\"1.1\" encoding=\"UTF-8\""

  function Declaration(): string {
    "<?" + DeclBody + "?>\n"
  }

  datatype Attr = Attr(name: string, value: string)

  function AttrText(a: Attr): string {
    " " + a.name + "=\"" + Escaped(a.value, true) + "\""
  }

  function AttrsText(attrs: seq<Attr>): string {
    if attrs == [] then "" else AttrsText(attrs[..|attrs| - 1]) + AttrText(attrs[|attrs| - 1])
  }

  function StartText(name: string, attrs: seq<Attr>): string {
    "<" + name + AttrsText(attrs) + ">"
  }

  function EmptyText(name: string, attrs: seq<Attr>): string {
    "<" + name + AttrsText(attrs) + "/>"
  }

  function EndText(name: string): string {
    "</" + name + ">"
  }

  /** What a caller asks of the writer. A complete element is an empty one, or a start, its text and an end. */
  datatype Op = Start(name: string, attrs: seq<Attr>) | Empty(name: string, attrs: seq<Attr>) | Text(text: string) | End

  /** A document so far: its bytes and its open elements, innermost last. */
  datatype Doc = Doc(bytes: string, open: seq<string>)

  const Begun := Doc(Declaration(), [])

  function Write(d: Doc, op: Op): Doc {
    match op
    case Start(name, attrs) => Doc(d.bytes + StartText(name, attrs), d.open + [name])
    case Empty(name, attrs) => d.(bytes := d.bytes + EmptyText(name, attrs))
    case Text(s) => d.(bytes := d.bytes + Escaped(s, false))
    case End => if d.open == [] then d else Doc(d.bytes + EndText(d.open[|d.open| - 1]), d.open[..|d.open| - 1])
  }

  function WriteAll(d: Doc, ops: seq<Op>): Doc {
    if ops == [] then d else Write(WriteAll(d, ops[..|ops| - 1]), ops[|ops| - 1])
  }

  function ElementOps(name: string, content: string, attrs: seq<Attr>): seq<Op> {
    if content == "" then [Empty(name, attrs)] else [Start(name, attrs), Text(content), End]
  }

  /** The writer over a sink that may fail. After an error nothing more is written. */
  class Writer {
    var sink: string
    var failed: bool
    var open: seq<string>
    /** What a sink that never fails would hold. */
    ghost var bytes: string

    ghost predicate Valid()
      reads this
    {
      sink <= bytes && (!failed ==> sink == bytes)
    }

    ghost function Now(): Doc
      reads this
    {
      Doc(bytes, open)
    }

    constructor ()
      ensures Valid() && Now() == Begun
    {
      sink, failed, open := "", false, [];
      bytes := "";
      new;
      Raw(Declaration());
      assert "" + Declaration() == Declaration();
    }

    /** More bytes, unless the writer has failed. The sink may take only a part of them. */
    method Raw(s: string)
      requires Valid()
      modifies this`sink, this`failed, this`bytes
      ensures Valid() && bytes == old(bytes) + s && (old(failed) ==> failed)
    {
      bytes := bytes + s;
      if failed {
        return;
      }
      var took: nat :| took <= |s|;
      if took < |s| {
        sink := sink + s[..took];
        failed := true;
        return;
      }
      sink := sink + s;
    }

    method RawTag(name: string, attrs: seq<Attr>, close: string)
      requires Valid()
      modifies this`sink, this`failed, this`bytes
      ensures Valid() && bytes == old(bytes) + ("<" + name + AttrsText(attrs) + close) && (old(failed) ==> failed)
    {
      hide Escaped, Valid, AttrsText, AttrText;
      Raw("<" + name);
      ghost var head := "<" + name;
      NoAttrs(old(bytes), head);
      for i := 0 to |attrs|
        invariant Valid() && bytes == old(bytes) + (head + AttrsText(attrs[..i])) && (old(failed) ==> failed)
      {
        MoreAttrs(old(bytes), head, attrs, i);
        var a := attrs[i];
        var value := Escape(a.value, true);
        AttrIs(a);
        Raw(" " + a.name + "=\"" + value + "\"");
      }
      assert attrs[..|attrs|] == attrs;
      Raw(close);
      assert old(bytes) + (head + AttrsText(attrs)) + close == old(bytes) + (head + AttrsText(attrs) + close);
    }

    method StartElement(name: string, attrs: seq<Attr>)
      requires Valid()
      modifies this
      ensures Valid() && Now() == Write(old(Now()), Start(name, attrs)) && (old(failed) ==> failed)
    {
      RawTag(name, attrs, ">");
      open := open + [name];
    }

    method EmptyElement(name: string, attrs: seq<Attr>)
      requires Valid()
      modifies this
      ensures Valid() && Now() == Write(old(Now()), Empty(name, attrs)) && (old(failed) ==> failed)
    {
      RawTag(name, attrs, "/>");
    }

    /** The end tag of the last open name; with none open, the writer fails and writes nothing. */
    method EndElement()
      requires Valid()
      modifies this
      ensures Valid() && Now() == Write(old(Now()), End) && (old(failed) ==> failed)
      ensures old(open) == [] ==> failed
    {
      if |open| == 0 {
        failed := true;
        return;
      }
      var name := open[|open| - 1];
      open := open[..|open| - 1];
      Raw("</" + name + ">");
    }

    method CharData(s: string)
      requires Valid()
      modifies this`sink, this`failed, this`bytes
      ensures Valid() && Now() == Write(old(Now()), Op.Text(s)) && (old(failed) ==> failed)
    {
      var t := Escape(s, false);
      Raw(t);
    }

    /** ElementOps in one call. */
    method Element(name: string, content: string, attrs: seq<Attr>)
      requires Valid()
      modifies this
      ensures Valid() && Now() == WriteAll(old(Now()), ElementOps(name, content, attrs)) && (old(failed) ==> failed)
    {
      hide Write;
      if content == "" {
        EmptyElement(name, attrs);
        WriteOne(old(Now()), Empty(name, attrs));
        return;
      }
      StartElement(name, attrs);
      CharData(content);
      EndElement();
      WriteThree(old(Now()), Start(name, attrs), Op.Text(content), End);
    }
  }

  lemma NoAttrs(before: string, head: string)
    ensures AttrsText([]) == "" && before + (head + "") == before + head
  {
  }

  lemma AttrIs(a: Attr)
    ensures AttrText(a) == " " + a.name + "=\"" + Escaped(a.value, true) + "\""
  {
  }

  lemma MoreAttrs(before: string, head: string, attrs: seq<Attr>, i: nat)
    requires i < |attrs|
    ensures before + (head + AttrsText(attrs[..i + 1])) == before + (head + AttrsText(attrs[..i])) + AttrText(attrs[i])
  {
    hide AttrText;
    assert attrs[..i + 1][..i] == attrs[..i];
  }

  lemma WriteNext(d: Doc, ops: seq<Op>, op: Op)
    ensures WriteAll(d, ops + [op]) == Write(WriteAll(d, ops), op)
    ensures WriteAll(d, []) == d
  {
    hide Write;
    assert (ops + [op])[..|ops|] == ops;
  }

  lemma WriteOne(d: Doc, op: Op)
    ensures WriteAll(d, [op]) == Write(d, op)
  {
    hide *;
    WriteNext(d, [], op);
    assert [] + [op] == [op];
  }

  lemma WriteThree(d: Doc, a: Op, b: Op, c: Op)
    ensures WriteAll(d, [a, b, c]) == Write(Write(Write(d, a), b), c)
  {
    hide *;
    WriteOne(d, a);
    WriteNext(d, [a], b);
    WriteNext(d, [a] + [b], c);
    assert [a] + [b] + [c] == [a, b, c];
  }

  // --- what the scanner makes of each piece

  /** A name that does not itself look like markup. */
  predicate SafeName(n: string) {
    n != "" && n[0] != '?' && n[0] != '!' && forall i :: 0 <= i < |n| ==> NameChar(n[i])
  }

  predicate SafeAttrs(attrs: seq<Attr>) {
    forall i :: 0 <= i < |attrs| ==> forall k :: 0 <= k < |attrs[i].name| ==> NameChar(attrs[i].name[k])
  }

  predicate Safe(op: Op) {
    (op.Start? || op.Empty?) ==> SafeName(op.name) && SafeAttrs(op.attrs)
  }

  lemma AttrRuns(s: Scan, a: Attr)
    requires InTag(s) && forall k :: 0 <= k < |a.name| ==> NameChar(a.name[k])
    ensures Passes(s, AttrText(a), s)
  {
    hide Passes, Escaped;
    var head, value := " " + a.name + "=", Escaped(a.value, true);
    var quoted := s.(quote := Some('"'));
    TagChars(s, head);
    PassesOne(s, '"');
    PassesOn(s, head, s, ['"'], quoted);
    EscapedNoMarkup(a.value, true);
    QuotedChars(quoted, value);
    PassesOn(s, head + ['"'], quoted, value, quoted);
    PassesOne(quoted, '"');
    PassesOn(s, head + ['"'] + value, quoted, ['"'], s);
    assert head + ['"'] + value + ['"'] == AttrText(a);
  }

  lemma {:induction false} AttrsRun(s: Scan, attrs: seq<Attr>)
    requires InTag(s) && SafeAttrs(attrs)
    ensures Passes(s, AttrsText(attrs), s)
  {
    if attrs == [] {
      PassesNone(s);
    } else {
      hide Passes, AttrText;
      AttrsRun(s, attrs[..|attrs| - 1]);
      AttrRuns(s, attrs[|attrs| - 1]);
      PassesOn(s, AttrsText(attrs[..|attrs| - 1]), s, AttrText(attrs[|attrs| - 1]), s);
    }
  }

  /** Into a tag, past its name and its attributes. */
  function Opened(s: Scan, c: char): Scan {
    s.(place := Tag, tag := Opening, lead := [c])
  }

  lemma TagRuns(s: Scan, name: string, attrs: seq<Attr>)
    requires s.place.Outside? && s.quote.None? && SafeName(name) && SafeAttrs(attrs)
    ensures Passes(s, "<" + name + AttrsText(attrs), Opened(s, name[0]))
  {
    hide Passes;
    var lead := s.(place := Lead, lead := "");
    var u := Opened(s, name[0]);
    PassesOne(s, '<');
    assert NameChar(name[0]);
    assert lead.lead + [name[0]] == [name[0]];
    PassesOne(lead, name[0]);
    PassesOn(s, ['<'], lead, [name[0]], u);
    TagChars(u, name[1..]);
    PassesOn(s, ['<'] + [name[0]], u, name[1..], u);
    AttrsRun(u, attrs);
    PassesOn(s, ['<'] + [name[0]] + name[1..], u, AttrsText(attrs), u);
    assert ['<'] + [name[0]] + name[1..] == "<" + name;
  }

  /** A start tag takes the scanner one deeper. */
  lemma StartRuns(s: Scan, depth: nat, started: bool, name: string, attrs: seq<Attr>)
    requires AtContent(s, depth, started) && SafeName(name) && SafeAttrs(attrs)
    ensures Runs(s, StartText(name, attrs)) && AtContent(After(s, StartText(name, attrs)), depth + 1, true)
  {
    hide After, Runs, AttrsText;
    TagRuns(s, name, attrs);
    var u := Opened(s, name[0]);
    PassesOne(u, '>');
    PassesOn(s, "<" + name + AttrsText(attrs), u, ['>'], CloseTag(u).scan);
    assert "<" + name + AttrsText(attrs) + ['>'] == StartText(name, attrs);
  }

  /** A tag that closes itself leaves the scanner where it was, unless it is the whole document. */
  lemma EmptyRuns(s: Scan, depth: nat, started: bool, name: string, attrs: seq<Attr>)
    requires AtContent(s, depth, started) && SafeName(name) && SafeAttrs(attrs)
    ensures started ==> Runs(s, EmptyText(name, attrs)) && AtContent(After(s, EmptyText(name, attrs)), depth, true)
    ensures !started ==> Closes(s, EmptyText(name, attrs))
  {
    hide After, Runs, AttrsText, Ends;
    TagRuns(s, name, attrs);
    var u := Opened(s, name[0]);
    var w := u.(tag := SelfClosing);
    var head := "<" + name + AttrsText(attrs);
    PassesOne(u, '/');
    PassesOn(s, head, u, ['/'], w);
    assert head + ['/'] + ['>'] == EmptyText(name, attrs);
    if started {
      PassesOne(w, '>');
      PassesOn(s, head + ['/'], w, ['>'], CloseTag(w).scan);
    } else {
      ClosesOn(s, head + ['/'], w, '>');
    }
  }

  /** An end tag takes the scanner back up, and at the root it ends the document. */
  lemma EndRuns(s: Scan, depth: nat, name: string)
    requires AtContent(s, depth, true) && depth > 0 && SafeName(name)
    ensures depth > 1 ==> Runs(s, EndText(name)) && AtContent(After(s, EndText(name)), depth - 1, true)
    ensures depth == 1 ==> Closes(s, EndText(name))
  {
    hide After, Runs, Ends;
    var lead := s.(place := Lead, lead := "");
    var u := s.(place := Tag, tag := Closing, lead := "/");
    PassesOne(s, '<');
    assert lead.lead + ['/'] == "/";
    PassesOne(lead, '/');
    PassesOn(s, ['<'], lead, ['/'], u);
    TagChars(u, name);
    PassesOn(s, ['<'] + ['/'], u, name, u);
    assert ['<'] + ['/'] + name + ['>'] == EndText(name);
    if depth > 1 {
      PassesOne(u, '>');
      PassesOn(s, ['<'] + ['/'] + name, u, ['>'], CloseTag(u).scan);
    } else {
      ClosesOn(s, ['<'] + ['/'] + name, u, '>');
    }
  }

  // --- depth is height

  lemma NoSuffix(lead: string, c: char)
    requires c != '>'
    ensures !HasSuffix(lead + [c], "?>")
  {
    var t := lead + [c];
    if |t| >= 2 {
      assert t[|t| - 2..][1] == c && "?>"[1] == '>';
    }
  }

  lemma {:induction false} InstructionChars(s: Scan, t: string)
    requires s.place.Instruction? && '>' !in t
    ensures Passes(s, t, s.(lead := s.lead + t))
  {
    if t == "" {
      PassesNone(s);
      assert s.lead + "" == s.lead;
    } else {
      hide Passes;
      var init, c := t[..|t| - 1], t[|t| - 1];
      InstructionChars(s, init);
      NoSuffix(s.lead + init, c);
      assert Feed(s.(lead := s.lead + init), c) == On(s.(lead := s.lead + init + [c]));
      PassesOne(s.(lead := s.lead + init), c);
      PassesOn(s, init, s.(lead := s.lead + init), [c], s.(lead := s.lead + init + [c]));
      assert init + [c] == t && s.lead + init + [c] == s.lead + t;
    }
  }

  lemma LeadEnds(body: string)
    ensures var lead := "?" + (body + "?") + ['>'];
            lead[|lead| - 2..] == "?>"
  {
    var lead := "?" + (body + "?") + ['>'];
    assert lead == ("?" + body) + "?>";
  }

  /** An instruction before the root is passed, whatever it says. */
  lemma InstructionRuns(body: string)
    requires '>' !in body
    ensures Runs(Initial, "<?" + body + "?>\n") && AtContent(After(Initial, "<?" + body + "?>\n"), 0, false)
  {
    hide After, Runs;
    var lead := Initial.(place := Lead, lead := "");
    var a := Initial.(place := Instruction, lead := "?");
    var b := a.(lead := a.lead + (body + "?"));
    var c := b.(place := Outside, lead := b.lead + ['>']);
    PassesOne(Initial, '<');
    assert lead.lead + ['?'] == "?";
    PassesOne(lead, '?');
    PassesOn(Initial, ['<'], lead, ['?'], a);
    InstructionChars(a, body + "?");
    PassesOn(Initial, ['<'] + ['?'], a, body + "?", b);
    LeadEnds(body);
    PassesOne(b, '>');
    PassesOn(Initial, ['<'] + ['?'] + (body + "?"), b, ['>'], c);
    PassesOne(c, '\n');
    PassesOn(Initial, ['<'] + ['?'] + (body + "?") + ['>'], c, ['\n'], c);
    assert ['<'] + ['?'] + (body + "?") + ['>'] + ['\n'] == "<?" + body + "?>\n";
  }

  lemma DeclarationRuns()
    ensures Runs(Initial, Declaration()) && AtContent(After(Initial, Declaration()), 0, false)
  {
    hide Runs, After, AtContent;
    InstructionRuns(DeclBody);
  }

  /** The scanner stands in character data, as deep as the writer's stack is high. */
  ghost predicate Joint(d: Doc, started: bool) {
    && Runs(Initial, d.bytes) && AtContent(After(Initial, d.bytes), |d.open|, started)
    && forall i :: 0 <= i < |d.open| ==> SafeName(d.open[i])
  }

  lemma JointAtFirst()
    ensures Joint(Begun, false)
  {
    DeclarationRuns();
  }

  lemma JointMore(d: Doc, started: bool, t: string)
    requires Joint(d, started) && Runs(After(Initial, d.bytes), t)
    ensures Runs(Initial, d.bytes + t) && After(Initial, d.bytes + t) == After(After(Initial, d.bytes), t)
  {
    hide After, Runs;
    RunsConcat(Initial, d.bytes, t);
    AfterConcat(Initial, d.bytes, t);
  }

  /** Every call that leaves the document open keeps the two in step. */
  lemma JointStep(d: Doc, started: bool, op: Op)
    requires Joint(d, started) && Safe(op) && (op.Empty? ==> started) && (op.End? ==> |d.open| > 1 && started)
    ensures Joint(Write(d, op), started || op.Start?)
  {
    hide After, Runs, Ends, StartText, EmptyText, EndText, Escaped;
    var s := After(Initial, d.bytes);
    match op
    case Start(name, attrs) =>
      StartRuns(s, |d.open|, started, name, attrs);
      JointMore(d, started, StartText(name, attrs));
    case Empty(name, attrs) =>
      EmptyRuns(s, |d.open|, started, name, attrs);
      JointMore(d, started, EmptyText(name, attrs));
    case Text(t) =>
      EscapedNoMarkup(t, false);
      ContentRuns(s, Escaped(t, false));
      JointMore(d, started, Escaped(t, false));
    case End =>
      var name := d.open[|d.open| - 1];
      EndRuns(s, |d.open|, name);
      JointMore(d, started, EndText(name));
  }

  /** The call that closes the root makes the bytes one document. */
  lemma JointEnd(d: Doc, started: bool, op: Op)
    requires Joint(d, started) && Safe(op) && (if op.End? then |d.open| == 1 && started else op.Empty? && !started)
    requires Declaration() <= d.bytes
    ensures IsDocument(Write(d, op).bytes)
  {
    hide After, Runs, Ends, StartText, EmptyText, EndText;
    var s := After(Initial, d.bytes);
    if op.End? {
      EndRuns(s, 1, d.open[0]);
      ClosesAfter(Initial, d.bytes, s, EndText(d.open[0]));
    } else {
      EmptyRuns(s, |d.open|, started, op.name, op.attrs);
      ClosesAfter(Initial, d.bytes, s, EmptyText(op.name, op.attrs));
    }
    assert Write(d, op).bytes[0] == Declaration()[0] == '<';
  }

  predicate AllSafe(ops: seq<Op>) {
    forall i :: 0 <= i < |ops| ==> Safe(ops[i])
  }

  /** Calls that open a root element and have not closed it. */
  predicate Unfinished(ops: seq<Op>) {
    AllSafe(ops) && forall i :: 0 < i <= |ops| ==> WriteAll(Begun, ops[..i]).open != []
  }

  /** Calls that make a whole document: a root is opened and closed with the last call, or is one empty element. */
  predicate Whole(ops: seq<Op>) {
    && ops != [] && AllSafe(ops)
    && (if |ops| == 1 then ops[0].Empty?
        else ops[|ops| - 1].End? && Unfinished(ops[..|ops| - 1]) && |WriteAll(Begun, ops[..|ops| - 1]).open| == 1)
  }

  lemma UnfinishedFront(ops: seq<Op>)
    requires Unfinished(ops) && ops != []
    ensures var init, op := ops[..|ops| - 1], ops[|ops| - 1];
            && Unfinished(init) && Safe(op)
            && (init == [] ==> op.Start?)
            && (op.End? ==> |WriteAll(Begun, init).open| > 1)
  {
    var init, op := ops[..|ops| - 1], ops[|ops| - 1];
    assert ops[..|ops|] == ops;
    assert WriteAll(Begun, ops) == Write(WriteAll(Begun, init), op);
    assert forall i :: 0 <= i <= |init| ==> init[..i] == ops[..i];
    assert WriteAll(Begun, ops[..|ops|]).open != [];
  }

  /** After every call of the writer, the reader's depth is the number of elements the writer has open. */
  lemma {:induction false} DepthIsHeight(ops: seq<Op>)
    requires Unfinished(ops)
    ensures Joint(WriteAll(Begun, ops), ops != [])
    ensures Declaration() <= WriteAll(Begun, ops).bytes
  {
    if ops == [] {
      JointAtFirst();
    } else {
      hide Joint, Unfinished, Safe;
      var init, op := ops[..|ops| - 1], ops[|ops| - 1];
      UnfinishedFront(ops);
      DepthIsHeight(init);
      JointStep(WriteAll(Begun, init), init != [], op);
    }
  }

  /** Balanced calls make exactly one document, as the reader sees documents. */
  lemma WholeDocument(ops: seq<Op>)
    requires Whole(ops)
    ensures IsDocument(WriteAll(Begun, ops).bytes)
  {
    hide Joint, Safe, IsDocument, Write;
    var init, op := ops[..|ops| - 1], ops[|ops| - 1];
    if |ops| == 1 {
      assert init == [];
      JointAtFirst();
      JointEnd(Begun, false, op);
    } else {
      DepthIsHeight(init);
      JointEnd(WriteAll(Begun, init), true, op);
    }
  }

  /** Whatever part of a document a failing sink took, the reader does not take it for a document. */
  lemma CutDocumentRefused(ops: seq<Op>, sink: string, broken: bool, r: Result, rest: string)
    requires Whole(ops) && |WriteAll(Begun, ops).bytes| <= MaxDocument
    requires sink != "" && sink < WriteAll(Begun, ops).bytes && Gives(sink, broken, r, rest)
    ensures r == if broken then Failed else Truncated
  {
    hide Whole, Gives, IsDocument, WriteAll;
    WholeDocument(ops);
    GivesNothing(sink, broken, r, rest, WriteAll(Begun, ops).bytes);
  }

  /** Any number of documents made by balanced calls, back to back with white space between them, come apart again into
      exactly those documents. */
  method SplitDocuments(r: Reader, ghost all: seq<seq<Op>>, ghost gaps: seq<string>, ghost end: string) returns (out: seq<string>, last: Result)
    requires |all| == |gaps| && AllBlank(gaps) && DocRead.Blank(end)
    requires forall i :: 0 <= i < |all| ==> Whole(all[i]) && |WriteAll(Begun, all[i]).bytes| <= MaxDocument
    requires r.rest == Stream(AllBytes(all), gaps, end)
    modifies r
    ensures out == AllBytes(all) && last == if r.broken then Failed else Eof
  {
    hide Whole, WriteAll, IsDocument, AllBlank, DocRead.Blank;
    forall i | 0 <= i < |all| ensures IsDocument(WriteAll(Begun, all[i]).bytes) {
      WholeDocument(all[i]);
    }
    out, last := ReadStream(r, AllBytes(all), gaps, end);
  }

  function AllBytes(all: seq<seq<Op>>): (docs: seq<string>)
    ensures |docs| == |all|
    ensures forall i :: 0 <= i < |all| ==> docs[i] == WriteAll(Begun, all[i]).bytes
  {
    if all == [] then [] else AllBytes(all[..|all| - 1]) + [WriteAll(Begun, all[|all| - 1]).bytes]
  }
}
