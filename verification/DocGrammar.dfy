/** XML documents as they may be written, and that each is read as one (core/docread.go). */
module DocGrammar {
  import opened Wrappers
  import opened DocRead

  /** An attribute: white space before its name and on both sides of the equals sign, and a value in either quote. */
  datatype Attr = Attr(gap: string, name: string, before: string, after: string, quote: char, value: string)

  /** A name, its attributes, and white space at the end. */
  datatype Tag = Tag(name: string, attrs: seq<Attr>, gap: string)

  datatype Markup =
    | Text(text: string)
    | Comment(comment: string)
    | CData(data: string)
    | Instruction(instruction: string)
    | Empty(tag: Tag)
    | Element(tag: Tag, items: seq<Markup>, gap: string)

  /** What comes before the root, and the root. */
  datatype Doc = Doc(prolog: seq<Markup>, root: Markup)

  // --- which of them there are

  predicate IsName(n: string) {
    && n != "" && n[0] != '?' && n[0] != '!'
    && forall i :: 0 <= i < |n| ==> NameChar(n[i]) && !IsSpace(n[i]) && n[i] != '=' && n[i] != '<'
  }

  predicate ValidAttr(a: Attr) {
    && a.gap != "" && Blank(a.gap) && IsName(a.name) && Blank(a.before) && Blank(a.after)
    && (a.quote == '"' || a.quote == '\'') && a.quote !in a.value
  }

  predicate ValidTag(t: Tag) {
    IsName(t.name) && (forall i :: 0 <= i < |t.attrs| ==> ValidAttr(t.attrs[i])) && Blank(t.gap)
  }

  predicate OccursAt(s: string, t: string, i: nat) {
    i + |t| <= |s| && s[i..i + |t|] == t
  }

  predicate Contains(s: string, t: string) {
    exists i :: 0 <= i <= |s| && OccursAt(s, t, i)
  }

  /** The text of a comment that is closed at once, because its first characters complete the mark that ends it. */
  predicate CutShort(comment: string) {
    ">" <= comment || "->" <= comment
  }

  /** The contents of a comment, a section or an instruction are any text without the mark that ends it. */
  predicate Valid(m: Markup) {
    match m
    case Text(t) => '<' !in t
    case Comment(t) => !Contains(t, "-->") && !CutShort(t)
    case CData(t) => !Contains(t, "]]>")
    case Instruction(t) => !Contains(t, "?>") && !(">" <= t)
    case Empty(tag) => ValidTag(tag)
    case Element(tag, items, gap) => ValidTag(tag) && Blank(gap) && forall i :: 0 <= i < |items| ==> Valid(items[i])
  }

  predicate InProlog(m: Markup) {
    Valid(m) && (m.Comment? || m.Instruction? || (m.Text? && Blank(m.text)))
  }

  /** A document begins with markup. */
  predicate ValidDoc(d: Doc) {
    && (forall i :: 0 <= i < |d.prolog| ==> InProlog(d.prolog[i])) && (d.prolog != [] ==> !d.prolog[0].Text?)
    && Valid(d.root) && (d.root.Empty? || d.root.Element?)
  }

  // --- how they are written

  function AttrText(a: Attr): string {
    a.gap + a.name + a.before + "=" + a.after + [a.quote] + a.value + [a.quote]
  }

  function AttrsText(attrs: seq<Attr>): string {
    if attrs == [] then "" else AttrsText(attrs[..|attrs| - 1]) + AttrText(attrs[|attrs| - 1])
  }

  function TagText(t: Tag): string {
    "<" + t.name + AttrsText(t.attrs) + t.gap
  }

  function Print(m: Markup): string {
    match m
    case Text(t) => t
    case Comment(t) => "<!--" + t + "-->"
    case CData(t) => "<![CDATA[" + t + "]]>"
    case Instruction(t) => "<?" + t + "?>"
    case Empty(tag) => TagText(tag) + "/>"
    case Element(tag, items, gap) => TagText(tag) + ">" + PrintItems(m, |items|) + "</" + tag.name + gap + ">"
  }

  /** The first n items of an element. */
  function PrintItems(m: Markup, n: nat): string
    requires m.Element? && n <= |m.items|
    decreases m, n
  {
    if n == 0 then "" else PrintItems(m, n - 1) + Print(m.items[n - 1])
  }

  function PrologText(ms: seq<Markup>): string {
    if ms == [] then "" else PrologText(ms[..|ms| - 1]) + Print(ms[|ms| - 1])
  }

  function DocText(d: Doc): string {
    PrologText(d.prolog) + Print(d.root)
  }

  // --- up to a mark

  /** The mark that ends what the scanner is in. */
  predicate EndsWith(s: Scan, mark: string) {
    (s.place.Comment? && mark == "-->") || (s.place.CData? && mark == "]]>") || (s.place.Instruction? && mark == "?>")
  }

  /** No part of the text up to n brings the mark. */
  predicate NoMark(lead: string, t: string, mark: string) {
    forall n :: 0 < n <= |t| ==> !HasSuffix(lead + t[..n], mark)
  }

  lemma NoMarkFront(lead: string, t: string, mark: string)
    requires NoMark(lead, t, mark) && t != ""
    ensures NoMark(lead, t[..|t| - 1], mark) && !HasSuffix(lead + t, mark)
  {
    hide HasSuffix;
    var init := t[..|t| - 1];
    assert t[..|t|] == t;
    forall n | 0 < n <= |init| ensures !HasSuffix(lead + init[..n], mark) {
      assert init[..n] == t[..n];
    }
  }

  lemma {:induction false} InsideRuns(s: Scan, t: string, mark: string)
    requires EndsWith(s, mark) && NoMark(s.lead, t, mark)
    ensures Passes(s, t, s.(lead := s.lead + t))
  {
    hide NoMark, Passes, HasSuffix;
    if t == "" {
      assert s.lead + t == s.lead;
      PassesNone(s);
    } else {
      var init, c := t[..|t| - 1], t[|t| - 1];
      NoMarkFront(s.lead, t, mark);
      InsideRuns(s, init, mark);
      var u := s.(lead := s.lead + init);
      assert u.lead + [c] == s.lead + t;
      PassesOne(u, c);
      PassesOn(s, init, u, [c], s.(lead := s.lead + t));
      assert init + [c] == t;
    }
  }

  /** Everything up to the first mark is passed over. */
  lemma {:induction false} MarkedRuns(s: Scan, t: string, mark: string)
    requires EndsWith(s, mark) && t != "" && NoMark(s.lead, t[..|t| - 1], mark) && HasSuffix(s.lead + t, mark)
    ensures Passes(s, t, s.(place := Outside, lead := s.lead + t))
  {
    hide Passes, HasSuffix;
    var init, c := t[..|t| - 1], t[|t| - 1];
    InsideRuns(s, init, mark);
    var u := s.(lead := s.lead + init);
    assert u.lead + [c] == s.lead + t;
    PassesOne(u, c);
    PassesOn(s, init, u, [c], s.(place := Outside, lead := s.lead + t));
    assert init + [c] == t;
  }

  predicate IsMark(mark: string) {
    mark != "" && mark[|mark| - 1] == '>' && forall i :: 0 <= i < |mark| - 1 ==> mark[i] != '>'
  }

  lemma NotSuffix(x: string, mark: string, m: nat)
    requires !Contains(x, mark) && m <= |x|
    ensures !HasSuffix(x[..m], mark)
  {
    if |mark| <= m {
      assert !OccursAt(x, mark, m - |mark|);
      assert x[..m][m - |mark|..] == x[m - |mark|..m];
    }
  }

  lemma LastDiffers(v: string, mark: string)
    requires v != "" && mark != "" && v[|v| - 1] != mark[|mark| - 1]
    ensures !HasSuffix(v, mark)
  {
    if |mark| <= |v| {
      assert v[|v| - |mark|..][|mark| - 1] == v[|v| - 1];
    }
  }

  /** A mark ends only where it stands. */
  lemma {:induction false} OnlyAtEnd(lead: string, t: string, mark: string)
    requires IsMark(mark) && !Contains(lead + t, mark)
    ensures NoMark(lead, (t + mark)[..|t + mark| - 1], mark) && HasSuffix(lead + (t + mark), mark)
  {
    hide Contains, HasSuffix;
    var u := (t + mark)[..|t + mark| - 1];
    forall n | 0 < n <= |u| ensures !HasSuffix(lead + u[..n], mark) {
      var v := lead + u[..n];
      if n <= |t| {
        assert v == (lead + t)[..|v|];
        NotSuffix(lead + t, mark, |v|);
      } else {
        assert v[|v| - 1] == (t + mark)[n - 1] == mark[n - 1 - |t|];
        LastDiffers(v, mark);
      }
    }
    EndsThere(lead + t, mark);
    assert lead + t + mark == lead + (t + mark);
  }

  lemma EndsThere(x: string, mark: string)
    ensures HasSuffix(x + mark, mark)
  {
  }

  /** What is between lead and mark is passed over, where the mark does not come early. */
  lemma {:induction false} UpToMark(s: Scan, t: string, mark: string)
    requires EndsWith(s, mark) && !Contains(s.lead + t, mark)
    ensures Passes(s, t + mark, s.(place := Outside, lead := s.lead + (t + mark)))
  {
    hide Passes, Contains, HasSuffix, NoMark;
    assert IsMark(mark);
    OnlyAtEnd(s.lead, t, mark);
    MarkedRuns(s, t + mark, mark);
  }

  lemma OccursLater(l: string, t: string, mark: string, i: nat)
    ensures i >= |l| && OccursAt(l + t, mark, i) ==> OccursAt(t, mark, i - |l|)
    ensures OccursAt(t, mark, i) ==> OccursAt(l + t, mark, i + |l|)
  {
    if i >= |l| && OccursAt(l + t, mark, i) {
      assert (l + t)[i..i + |mark|] == t[i - |l|..i - |l| + |mark|];
    }
    if OccursAt(t, mark, i) {
      assert (l + t)[i + |l|..i + |l| + |mark|] == t[i..i + |mark|];
    }
  }

  lemma NotAt(s: string, t: string, i: nat, k: nat)
    requires k < |t| && i + k < |s| && s[i + k] != t[k]
    ensures !OccursAt(s, t, i)
  {
    if i + |t| <= |s| {
      assert s[i..i + |t|][k] == s[i + k];
    }
  }

  lemma OccursPoint(s: string, t: string, i: nat, k: nat)
    requires OccursAt(s, t, i) && k < |t|
    ensures i + |t| <= |s| && s[i + k] == t[k]
  {
    assert s[i..i + |t|][k] == s[i + k];
  }

  lemma ContainsAt(s: string, t: string, i: nat)
    requires OccursAt(s, t, i)
    ensures Contains(s, t)
  {
  }

  /** A mark that begins before the text does. */
  lemma {:induction false} CommentEarly(t: string, i: nat)
    requires i < 3 && OccursAt("!--" + t, "-->", i)
    ensures CutShort(t)
  {
    hide OccursAt;
    var x, mark := "!--" + t, "-->";
    NotAt(x, mark, 0, 0);
    OccursPoint(x, mark, i, 1);
    OccursPoint(x, mark, i, 2);
    CommentChars(t, i + 1);
    CommentChars(t, i + 2);
  }

  lemma CommentChars(t: string, n: nat)
    requires n < 3 + |t|
    ensures ("!--" + t)[n] == if n == 0 then '!' else if n < 3 then '-' else t[n - 3]
  {
  }

  lemma {:induction false} CutShortMarks(t: string)
    requires CutShort(t)
    ensures Contains("!--" + t, "-->")
  {
    var x, mark := "!--" + t, "-->";
    if ">" <= t {
      assert x[1..4] == mark;
      ContainsAt(x, mark, 1);
    } else {
      assert x[2..5] == mark;
      ContainsAt(x, mark, 2);
    }
  }

  /** After what opens a comment, the mark comes early exactly when the text holds it or begins with its last part. */
  lemma {:induction false} CommentMarks(t: string)
    ensures Contains("!--" + t, "-->") <==> Contains(t, "-->") || CutShort(t)
  {
    hide OccursAt, CutShort;
    var l, x, mark := "!--", "!--" + t, "-->";
    if i: nat :| i <= |x| && OccursAt(x, mark, i) {
      if i >= 3 {
        OccursLater(l, t, mark, i);
        ContainsAt(t, mark, i - 3);
      } else {
        CommentEarly(t, i);
      }
    }
    if i: nat :| i <= |t| && OccursAt(t, mark, i) {
      OccursLater(l, t, mark, i);
      ContainsAt(x, mark, i + 3);
    }
    if CutShort(t) {
      CutShortMarks(t);
    }
  }

  /** What opens it is no part of a mark, so the mark is where the text has it. */
  lemma OnlyLater(l: string, t: string, mark: string)
    requires mark != "" && mark[0] !in l && !Contains(t, mark)
    ensures !Contains(l + t, mark)
  {
    var x := l + t;
    forall i | 0 <= i <= |x| ensures !OccursAt(x, mark, i) {
      if i < |l| {
        NotAt(x, mark, i, 0);
      } else {
        OccursLater(l, t, mark, i);
        assert i - |l| <= |t| ==> !OccursAt(t, mark, i - |l|);
      }
    }
  }

  lemma InstructionMarks(t: string)
    requires !Contains(t, "?>") && !(">" <= t)
    ensures !Contains("?" + t, "?>")
  {
    var l, x, mark := "?", "?" + t, "?>";
    forall i | 0 <= i <= |x| ensures !OccursAt(x, mark, i) {
      if i == 0 {
        assert t != "" ==> x[1] == t[0] != '>';
        if t != "" {
          NotAt(x, mark, 0, 1);
        }
      } else {
        OccursLater(l, t, mark, i);
        assert !OccursAt(t, mark, i - 1);
      }
    }
  }

  // --- piece by piece

  lemma PassesComment(s: Scan)
    requires s.place.Outside?
    ensures Passes(s, "<!--", s.(place := Place.Comment, lead := "!--"))
  {
    hide Passes;
    var a, b, c, d := s.(place := Lead, lead := ""), s.(place := Lead, lead := "!"), s.(place := Lead, lead := "!-"),
                      s.(place := Place.Comment, lead := "!--");
    assert "" + ['!'] == "!" && "!" + ['-'] == "!-" && "!-" + ['-'] == "!--";
    PassesOne(s, '<');
    PassesOne(a, '!');
    PassesOn(s, ['<'], a, ['!'], b);
    PassesOne(b, '-');
    PassesOn(s, ['<'] + ['!'], b, ['-'], c);
    PassesOne(c, '-');
    PassesOn(s, ['<'] + ['!'] + ['-'], c, ['-'], d);
    assert ['<'] + ['!'] + ['-'] + ['-'] == "<!--";
  }

  lemma CommentRuns(s: Scan, t: string, depth: nat, started: bool) returns (u: Scan)
    requires AtContent(s, depth, started) && Valid(Markup.Comment(t))
    ensures Passes(s, Print(Markup.Comment(t)), u) && AtContent(u, depth, started)
  {
    hide Passes, Contains, CutShort;
    CommentMarks(t);
    PassesComment(s);
    var d := s.(place := Place.Comment, lead := "!--");
    UpToMark(d, t, "-->");
    u := d.(place := Outside, lead := "!--" + (t + "-->"));
    PassesOn(s, "<!--", d, t + "-->", u);
    assert "<!--" + (t + "-->") == "<!--" + t + "-->";
  }

  /** As long as it may still be a comment or a section, the scanner keeps on deciding. */
  lemma {:induction false} LeadRuns(s: Scan, t: string, n: nat)
    requires s.place.Outside? && s.quote.None? && 0 < n < |t| && t == "![CDATA["
    ensures Passes(s, "<" + t[..n], s.(place := Lead, lead := t[..n]))
  {
    hide Passes;
    if n == 1 {
      var a := s.(place := Lead, lead := "");
      PassesOne(s, '<');
      assert t[..1] == ['!'] && a.lead + ['!'] == ['!'];
      PassesOne(a, '!');
      PassesOn(s, ['<'], a, ['!'], s.(place := Lead, lead := t[..1]));
      assert ['<'] + ['!'] == "<" + t[..1];
    } else {
      LeadRuns(s, t, n - 1);
      var b := s.(place := Lead, lead := t[..n - 1]);
      assert t[..n - 1] + [t[n - 1]] == t[..n];
      assert t[..n][0] == '!' && t[..n][1] == '[';
      PassesOne(b, t[n - 1]);
      PassesOn(s, "<" + t[..n - 1], b, [t[n - 1]], s.(place := Lead, lead := t[..n]));
      assert "<" + t[..n - 1] + [t[n - 1]] == "<" + t[..n];
    }
  }

  lemma CDataRuns(s: Scan, t: string, depth: nat, started: bool) returns (u: Scan)
    requires AtContent(s, depth, started) && Valid(Markup.CData(t))
    ensures Passes(s, Print(Markup.CData(t)), u) && AtContent(u, depth, started)
  {
    hide Passes, Contains;
    var l := "![CDATA[";
    LeadRuns(s, l, 7);
    var a := s.(place := Lead, lead := l[..7]);
    assert l[..7] + ['['] == l;
    var b := s.(place := Place.CData, lead := l);
    PassesOne(a, '[');
    PassesOn(s, "<" + l[..7], a, ['['], b);
    OnlyLater(l, t, "]]>");
    UpToMark(b, t, "]]>");
    u := b.(place := Outside, lead := l + (t + "]]>"));
    PassesOn(s, "<" + l[..7] + ['['], b, t + "]]>", u);
    assert "<" + l[..7] + ['['] + (t + "]]>") == "<![CDATA[" + t + "]]>";
  }

  lemma InstructionRuns(s: Scan, t: string, depth: nat, started: bool) returns (u: Scan)
    requires AtContent(s, depth, started) && Valid(Markup.Instruction(t))
    ensures Passes(s, Print(Markup.Instruction(t)), u) && AtContent(u, depth, started)
  {
    hide Passes, Contains;
    var a := s.(place := Lead, lead := "");
    PassesOne(s, '<');
    var b := s.(place := Place.Instruction, lead := "?");
    assert a.lead + ['?'] == "?";
    PassesOne(a, '?');
    PassesOn(s, ['<'], a, ['?'], b);
    InstructionMarks(t);
    UpToMark(b, t, "?>");
    u := b.(place := Outside, lead := "?" + (t + "?>"));
    PassesOn(s, ['<'] + ['?'], b, t + "?>", u);
    assert ['<'] + ['?'] + (t + "?>") == "<?" + t + "?>";
  }

  // --- tags

  lemma AttrRuns(s: Scan, a: Attr)
    requires InTag(s) && ValidAttr(a)
    ensures Passes(s, AttrText(a), s)
  {
    hide Passes;
    var head := a.gap + a.name + a.before + "=" + a.after;
    forall i | 0 <= i < |head| ensures NameChar(head[i]) {
      HeadChars(a, i);
    }
    TagChars(s, head);
    var quoted := s.(quote := Some(a.quote));
    PassesOne(s, a.quote);
    PassesOn(s, head, s, [a.quote], quoted);
    QuotedChars(quoted, a.value);
    PassesOn(s, head + [a.quote], quoted, a.value, quoted);
    PassesOne(quoted, a.quote);
    PassesOn(s, head + [a.quote] + a.value, quoted, [a.quote], s);
  }

  lemma SpaceIsChar(t: string)
    requires Blank(t)
    ensures forall i :: 0 <= i < |t| ==> NameChar(t[i])
  {
  }

  lemma HeadChars(a: Attr, i: nat)
    requires ValidAttr(a) && i < |a.gap + a.name + a.before + "=" + a.after|
    ensures NameChar((a.gap + a.name + a.before + "=" + a.after)[i])
  {
    hide NameChar, IsSpace;
    SpaceIsChar(a.gap);
    SpaceIsChar(a.before);
    SpaceIsChar(a.after);
    EqualsIsChar();
  }

  lemma EqualsIsChar()
    ensures NameChar('=')
  {
  }

  lemma {:induction false} AttrsRun(s: Scan, attrs: seq<Attr>)
    requires InTag(s) && forall i :: 0 <= i < |attrs| ==> ValidAttr(attrs[i])
    ensures Passes(s, AttrsText(attrs), s)
  {
    if attrs == [] {
      PassesNone(s);
    } else {
      hide Passes, AttrText, ValidAttr;
      AttrsRun(s, attrs[..|attrs| - 1]);
      AttrRuns(s, attrs[|attrs| - 1]);
      PassesOn(s, AttrsText(attrs[..|attrs| - 1]), s, AttrText(attrs[|attrs| - 1]), s);
    }
  }

  /** Into a tag, past all of it but its end. */
  lemma TagRuns(s: Scan, t: Tag) returns (u: Scan)
    requires s.place.Outside? && s.quote.None? && ValidTag(t)
    ensures Passes(s, TagText(t), u) && u == s.(place := Place.Tag, tag := Opening, lead := [t.name[0]])
  {
    hide Passes, AttrsText, ValidAttr;
    var a := s.(place := Lead, lead := "");
    u := s.(place := Place.Tag, tag := Opening, lead := [t.name[0]]);
    PassesOne(s, '<');
    assert NameChar(t.name[0]);
    assert a.lead + [t.name[0]] == [t.name[0]];
    PassesOne(a, t.name[0]);
    PassesOn(s, ['<'], a, [t.name[0]], u);
    TagChars(u, t.name[1..]);
    PassesOn(s, ['<'] + [t.name[0]], u, t.name[1..], u);
    assert ['<'] + [t.name[0]] + t.name[1..] == "<" + t.name;
    AttrsRun(u, t.attrs);
    PassesOn(s, "<" + t.name, u, AttrsText(t.attrs), u);
    SpaceIsChar(t.gap);
    TagChars(u, t.gap);
    PassesOn(s, "<" + t.name + AttrsText(t.attrs), u, t.gap, u);
  }

  lemma OpenRuns(s: Scan, t: Tag, depth: nat, started: bool) returns (u: Scan)
    requires AtContent(s, depth, started) && ValidTag(t)
    ensures Passes(s, TagText(t) + ">", u) && AtContent(u, depth + 1, true)
  {
    hide Passes, TagText;
    var v := TagRuns(s, t);
    u := v.(place := Outside, started := true, depth := depth + 1);
    PassesOne(v, '>');
    PassesOn(s, TagText(t), v, ['>'], u);
  }

  /** Up to the end of a tag that closes itself. */
  lemma SelfCloses(s: Scan, t: Tag, depth: nat, started: bool) returns (v: Scan)
    requires AtContent(s, depth, started) && ValidTag(t)
    ensures Passes(s, TagText(t) + "/", v)
    ensures v.place.Tag? && v.quote.None? && v.tag.SelfClosing? && v.depth == depth && v.started == started
  {
    hide Passes, TagText;
    var u := TagRuns(s, t);
    v := u.(tag := SelfClosing);
    PassesOne(u, '/');
    PassesOn(s, TagText(t), u, ['/'], v);
  }

  lemma EmptyRuns(s: Scan, t: Tag, depth: nat) returns (u: Scan)
    requires AtContent(s, depth, true) && ValidTag(t)
    ensures Passes(s, Print(Empty(t)), u) && AtContent(u, depth, true)
  {
    hide Passes, TagText;
    var v := SelfCloses(s, t, depth, true);
    u := v.(place := Outside);
    PassesOne(v, '>');
    PassesOn(s, TagText(t) + "/", v, ['>'], u);
    assert TagText(t) + "/" + ['>'] == TagText(t) + "/>";
  }

  /** Up to the end of an end tag. */
  lemma EndCloses(s: Scan, name: string, gap: string, depth: nat) returns (v: Scan)
    requires AtContent(s, depth, true) && IsName(name) && Blank(gap)
    ensures Passes(s, "</" + name + gap, v)
    ensures v.place.Tag? && v.quote.None? && v.tag.Closing? && v.depth == depth && v.started
  {
    hide Passes;
    var a := s.(place := Lead, lead := "");
    PassesOne(s, '<');
    v := s.(place := Place.Tag, tag := Closing, lead := "/");
    assert a.lead + ['/'] == "/";
    PassesOne(a, '/');
    PassesOn(s, ['<'], a, ['/'], v);
    TagChars(v, name);
    PassesOn(s, ['<'] + ['/'], v, name, v);
    SpaceIsChar(gap);
    TagChars(v, gap);
    PassesOn(s, ['<'] + ['/'] + name, v, gap, v);
    assert ['<'] + ['/'] + name + gap == "</" + name + gap;
  }

  lemma EndRuns(s: Scan, name: string, gap: string, depth: nat) returns (u: Scan)
    requires AtContent(s, depth, true) && depth > 1 && IsName(name) && Blank(gap)
    ensures Passes(s, "</" + name + gap + ">", u) && AtContent(u, depth - 1, true)
  {
    hide Passes;
    var v := EndCloses(s, name, gap, depth);
    u := v.(place := Outside, depth := depth - 1);
    PassesOne(v, '>');
    PassesOn(s, "</" + name + gap, v, ['>'], u);
  }

  // --- elements

  /** Inside the root, whatever is written leaves the scanner where it was. */
  lemma {:induction false} MarkupRuns(s: Scan, m: Markup, depth: nat) returns (u: Scan)
    requires AtContent(s, depth, true) && depth > 0 && Valid(m)
    ensures Passes(s, Print(m), u) && AtContent(u, depth, true)
    decreases m, 1, 0
  {
    hide Passes, PrintItems, TagText;
    match m
    case Text(t) =>
      ContentRuns(s, t);
      u := s;
    case Comment(t) => u := CommentRuns(s, t, depth, true);
    case CData(t) => u := CDataRuns(s, t, depth, true);
    case Instruction(t) => u := InstructionRuns(s, t, depth, true);
    case Empty(t) => u := EmptyRuns(s, t, depth);
    case Element(t, items, gap) =>
      var a := UpToEnd(s, m, depth, true);
      u := ElementEnds(s, m, a, depth);
  }

  lemma {:induction false} ElementEnds(s: Scan, m: Markup, a: Scan, depth: nat) returns (u: Scan)
    requires m.Element? && Valid(m) && Passes(s, TagText(m.tag) + ">" + PrintItems(m, |m.items|), a) && AtContent(a, depth + 1, true) && depth > 0
    ensures Passes(s, Print(m), u) && AtContent(u, depth, true)
  {
    hide Passes, PrintItems, TagText;
    u := EndRuns(a, m.tag.name, m.gap, depth + 1);
    var head, end := TagText(m.tag) + ">" + PrintItems(m, |m.items|), "</" + m.tag.name + m.gap + ">";
    PassesOn(s, head, a, end, u);
    assert head + end == Print(m);
  }

  /** The start tag of an element, and what is in it. */
  lemma {:induction false} UpToEnd(s: Scan, m: Markup, depth: nat, started: bool) returns (u: Scan)
    requires AtContent(s, depth, started) && Valid(m) && m.Element?
    ensures Passes(s, TagText(m.tag) + ">" + PrintItems(m, |m.items|), u) && AtContent(u, depth + 1, true)
    decreases m, 0, |m.items| + 1
  {
    hide Passes, TagText, PrintItems;
    var a := OpenRuns(s, m.tag, depth, started);
    u := ItemsRun(a, m, |m.items|, depth + 1);
    PassesOn(s, TagText(m.tag) + ">", a, PrintItems(m, |m.items|), u);
  }

  lemma {:induction false} ItemsRun(s: Scan, m: Markup, n: nat, depth: nat) returns (u: Scan)
    requires AtContent(s, depth, true) && depth > 0 && Valid(m) && m.Element? && n <= |m.items|
    ensures Passes(s, PrintItems(m, n), u) && AtContent(u, depth, true)
    decreases m, 0, n
  {
    if n == 0 {
      PassesNone(s);
      u := s;
    } else {
      hide Passes, Print;
      var a := ItemsRun(s, m, n - 1, depth);
      u := MarkupRuns(a, m.items[n - 1], depth);
      PassesOn(s, PrintItems(m, n - 1), a, Print(m.items[n - 1]), u);
    }
  }

  // --- documents

  lemma {:induction false} PrologRuns(s: Scan, ms: seq<Markup>) returns (u: Scan)
    requires AtContent(s, 0, false) && forall i :: 0 <= i < |ms| ==> InProlog(ms[i])
    ensures Passes(s, PrologText(ms), u) && AtContent(u, 0, false)
  {
    if ms == [] {
      PassesNone(s);
      u := s;
    } else {
      hide Passes, Print;
      var m := ms[|ms| - 1];
      var a := PrologRuns(s, ms[..|ms| - 1]);
      u := BeforeRoot(a, m);
      PassesOn(s, PrologText(ms[..|ms| - 1]), a, Print(m), u);
    }
  }

  lemma BeforeRoot(s: Scan, m: Markup) returns (u: Scan)
    requires AtContent(s, 0, false) && InProlog(m)
    ensures Passes(s, Print(m), u) && AtContent(u, 0, false)
  {
    hide Passes;
    match m
    case Text(t) =>
      ContentRuns(s, t);
      u := s;
    case Comment(t) => u := CommentRuns(s, t, 0, false);
    case Instruction(t) => u := InstructionRuns(s, t, 0, false);
  }

  /** The last byte of the root ends the document. */
  lemma RootCloses(s: Scan, m: Markup)
    requires AtContent(s, 0, false) && Valid(m) && (m.Empty? || m.Element?)
    ensures Closes(s, Print(m))
  {
    hide Passes, Closes, TagText, PrintItems;
    if m.Empty? {
      var v := SelfCloses(s, m.tag, 0, false);
      ClosesOn(s, TagText(m.tag) + "/", v, '>');
      assert TagText(m.tag) + "/" + ['>'] == Print(m);
    } else {
      var a := UpToEnd(s, m, 0, false);
      var v := EndCloses(a, m.tag.name, m.gap, 1);
      var head, end := TagText(m.tag) + ">" + PrintItems(m, |m.items|), "</" + m.tag.name + m.gap;
      PassesOn(s, head, a, end, v);
      ClosesOn(s, head + end, v, '>');
      assert head + end + ['>'] == Print(m);
    }
  }

  lemma BeginsWithMarkup(m: Markup)
    requires !m.Text?
    ensures Print(m) != "" && Print(m)[0] == '<'
  {
  }

  lemma {:induction false} PrologBegins(ms: seq<Markup>)
    requires ms != [] && !ms[0].Text?
    ensures PrologText(ms) != "" && PrologText(ms)[0] == '<'
  {
    hide Print;
    if |ms| == 1 {
      BeginsWithMarkup(ms[0]);
    } else {
      PrologBegins(ms[..|ms| - 1]);
    }
  }

  /** Every document of the grammar is one for the scanner: it ends with its last byte, and with none before. */
  lemma GrammarIsDocument(d: Doc)
    requires ValidDoc(d)
    ensures IsDocument(DocText(d))
  {
    hide Passes, Print, Valid, Ends, Runs;
    assert d.prolog == [] ==> PrologText(d.prolog) == "";
    hide PrologText;
    var u := PrologRuns(Initial, d.prolog);
    RootCloses(u, d.root);
    ClosesAfter(Initial, PrologText(d.prolog), u, Print(d.root));
    BeginsWithMarkup(d.root);
    if d.prolog != [] {
      PrologBegins(d.prolog);
    }
  }

  /** Behind white space and before anything else, it is what is read, and all that is read. */
  lemma GrammarIsRead(gap: string, d: Doc, more: string, broken: bool, r: Result, rest: string)
    requires Blank(gap) && ValidDoc(d) && |DocText(d)| <= MaxDocument
    requires var all := gap + DocText(d) + more; Gives(all[Spaces(all)..], broken, r, rest)
    ensures r == Document(DocText(d)) && rest == more
  {
    hide Gives, DocText, ValidDoc, IsSpace;
    GrammarIsDocument(d);
    DocumentStarts(DocText(d));
    var all := gap + DocText(d) + more;
    SpacesAre(all, |gap|);
    var t := DocText(d) + more;
    assert all[|gap|..] == t && t[|DocText(d)|..] == more;
    GivesTheDocument(t, broken, r, rest, DocText(d));
  }

  /** A stream that breaks off inside it gives no document. */
  lemma GrammarCut(gap: string, d: Doc, n: nat, broken: bool, r: Result, rest: string)
    requires Blank(gap) && ValidDoc(d) && 0 < n < |DocText(d)| <= MaxDocument
    requires var all := gap + DocText(d)[..n]; Gives(all[Spaces(all)..], broken, r, rest)
    ensures r == if broken then Failed else Truncated
  {
    hide Gives, DocText, ValidDoc, IsSpace;
    GrammarIsDocument(d);
    DocumentStarts(DocText(d));
    var t := DocText(d)[..n];
    SpacesAre(gap + t, |gap|);
    assert (gap + t)[|gap|..] == t;
    GivesNothing(t, broken, r, rest, DocText(d));
  }

  // --- comments that are cut short

  /** Some strict part of t, longer than its first n bytes, leaves the scanner outside of all markup. */
  predicate ComesOut(s: Scan, t: string, n: nat) {
    exists k :: n < k < |t| && After(s, t[..k]).place.Outside?
  }

  /** As long as no mark came, the scanner is in the comment. */
  lemma {:induction false} StaysIn(s: Scan, t: string, mark: string)
    requires EndsWith(s, mark) && NoMark(s.lead, t, mark)
    ensures After(s, t) == s.(lead := s.lead + t)
  {
    InsideRuns(s, t, mark);
  }

  /** A comment ends before its mark, although its text does not hold the mark, exactly when the text begins with the mark's
      last part. */
  lemma {:induction false} CommentCutExactly(s: Scan, t: string)
    requires s.place.Outside? && !Contains(t, "-->")
    ensures ComesOut(s, "<!--" + t + "-->", 4) <==> CutShort(t)
  {
    hide NoMark, Contains, CutShort, After;
    var all := "<!--" + t + "-->";
    if CutShort(t) {
      CutComesOut(s, t);
    } else {
      forall k | 4 < k < |all| ensures !After(s, all[..k]).place.Outside? {
        StaysWithin(s, t, k);
      }
    }
  }

  lemma {:induction false} StaysWithin(s: Scan, t: string, k: nat)
    requires s.place.Outside? && !Contains(t, "-->") && !CutShort(t) && 4 < k < |t| + 7
    ensures After(s, ("<!--" + t + "-->")[..k]).place.Comment?
  {
    hide NoMark, Contains, CutShort, After, HasSuffix;
    CommentMarks(t);
    OnlyAtEnd("!--", t, "-->");
    PassesComment(s);
    var body, u := t + "-->", (t + "-->")[..k - 4];
    assert ("<!--" + t + "-->")[..k] == "<!--" + u;
    AfterConcat(s, "<!--", u);
    assert body[..|body| - 1][..k - 4] == u;
    NoMarkPart("!--", body[..|body| - 1], k - 4, "-->");
    StaysIn(s.(place := Place.Comment, lead := "!--"), u, "-->");
  }

  lemma NoMarkPart(lead: string, t: string, n: nat, mark: string)
    requires NoMark(lead, t, mark) && n <= |t|
    ensures NoMark(lead, t[..n], mark)
  {
    hide HasSuffix;
    var u := t[..n];
    forall k | 0 < k <= |u| ensures !HasSuffix(lead + u[..k], mark) {
      assert u[..k] == t[..k];
    }
  }

  lemma {:induction false} CutComesOut(s: Scan, t: string)
    requires s.place.Outside? && CutShort(t)
    ensures ComesOut(s, "<!--" + t + "-->", 4)
  {
    var all, n := "<!--" + t + "-->", if ">" <= t then 1 else 2;
    var c := s.(place := Place.Comment, lead := "!--");
    PassesComment(s);
    var part := t[..n];
    assert part == if n == 1 then ">" else "->";
    assert all[..4 + n] == "<!--" + part;
    AfterConcat(s, "<!--", part);
    assert n == 2 ==> !HasSuffix("!--" + part[..1], "-->") by {
      assert n == 2 ==> ("!--" + part[..1])[3] == '-';
    }
    assert "!--" + part == if n == 1 then "!--" + ">" else "!--" + "->";
    assert HasSuffix("!--" + part, "-->");
    assert NoMark("!--", part[..n - 1], "-->") by {
      assert n == 2 ==> part[..1][..1] == part[..1];
    }
    MarkedRuns(c, part, "-->");
  }

  /** One of them: it is well-formed, and the document seems to end inside it. */
  lemma CommentIsCutShort()
    ensures var d, comment := "<d><!--></d>-->x</d>", "></d>";
            d == "<d><!--" + comment + "-->x</d>" && !Contains(comment, "--") && IsDocument("<d><!--></d>")
  {
    var comment := "></d>";
    forall i | 0 <= i <= |comment| ensures !OccursAt(comment, "--", i) {
      if i < |comment| {
        assert comment[i] != '-';
        NotAt(comment, "--", i, 0);
      }
    }
    ShortDocument();
  }

  /** What looks like the beginning of a comment leaves the scanner outside of all markup. */
  lemma ClosedAtOnce(s: Scan) returns (u: Scan)
    requires s.place.Outside?
    ensures Passes(s, "<!-->", u) && u == s.(lead := "!-->")
  {
    hide Passes;
    var c := s.(place := Place.Comment, lead := "!--");
    u := s.(lead := "!-->");
    PassesComment(s);
    assert "!--" + ['>'] == "!-->" && "!-->"[1..] == "-->";
    PassesOne(c, '>');
    PassesOn(s, "<!--", c, ['>'], u);
    assert "<!--" + ['>'] == "<!-->";
  }

  lemma ShortDocument()
    ensures IsDocument("<d><!--></d>")
  {
    hide Passes, Runs, Ends, TagText, Closes;
    var tag := Tag.Tag("d", [], "");
    var s := OpenRuns(Initial, tag, 0, false);
    OpenText(tag);
    var u := ClosedAtOnce(s);
    PassesOn(Initial, "<d>", s, "<!-->", u);
    var v := EndCloses(u, "d", "", 1);
    PassesOn(Initial, "<d>" + "<!-->", u, "</" + "d" + "", v);
    ClosesOn(Initial, "<d>" + "<!-->" + ("</" + "d" + ""), v, '>');
    assert "<d>" + "<!-->" + ("</" + "d" + "") + ['>'] == "<d><!--></d>";
    ClosedIs("<d><!--></d>");
  }

  lemma ClosedIs(t: string)
    requires Closes(Initial, t) && t != "" && t[0] == '<'
    ensures IsDocument(t)
  {
  }

  lemma OpenText(tag: Tag)
    requires tag.attrs == [] && tag.gap == "" && tag.name == "d"
    ensures TagText(tag) + ">" == "<d>"
  {
  }
}
