/** Finding where one XML document ends and the next begins, with no framing (core/docread.go). A character stands for
    one byte. */
module DocRead {
  import opened Wrappers

  const MaxDocument: nat := 67108864

  datatype Place = Outside | Lead | Tag | Comment | CData | Instruction

  datatype TagKind = Opening | Closing | SelfClosing

  /** The elements that are open after some bytes, counted, and what kind of byte may come next. */
  datatype Scan = Scan(place: Place, depth: int, started: bool, tag: TagKind, lead: string, quote: Option<char>)

  const Initial := Scan(Outside, 0, false, Opening, "", None)

  predicate IsSpace(b: char) {
    b == ' ' || b == '\t' || b == '\r' || b == '\n'
  }

  /** The scanner after a byte, and whether the document ended with it. */
  datatype Fed = Fed(scan: Scan, ended: bool)

  function On(s: Scan): Fed {
    Fed(s, false)
  }

  /** Ends a tag: the root element closes, or is a tag that closes itself. */
  function CloseTag(s: Scan): Fed {
    var t := s.(place := Outside);
    match s.tag
    case SelfClosing => Fed(t.(started := true), !s.started)
    case Opening => On(t.(started := true, depth := s.depth + 1))
    case Closing => Fed(t.(depth := s.depth - 1), s.started && s.depth - 1 == 0)
  }

  predicate ProperPrefix(b: string, s: string) {
    |b| < |s| && b <= s
  }

  /** What a tag is, from the bytes after '<'. */
  function LeadPlace(s: Scan): Scan
    requires s.lead != ""
  {
    if s.lead[0] == '?' then s.(place := Instruction)
    else if s.lead[0] == '!' then
      if s.lead == "!--" then s.(place := Comment)
      else if s.lead == "![CDATA[" then s.(place := CData)
      else if ProperPrefix(s.lead, "!--") || ProperPrefix(s.lead, "![CDATA[") then s
      else s.(place := Tag, tag := Opening)
    else if s.lead[0] == '/' then s.(place := Tag, tag := Closing)
    else s.(place := Tag, tag := Opening)
  }

  function FeedLead(s: Scan, b: char): Fed {
    var t := LeadPlace(s.(lead := s.lead + [b]));
    if b == '>' && t.place.Tag? then CloseTag(t) else On(t)
  }

  function FeedTag(s: Scan, b: char): Fed {
    if s.quote.Some? then On(if b == s.quote.value then s.(quote := None) else s)
    else if b == '"' || b == '\'' then On(s.(quote := Some(b)))
    else if b == '/' then On(s.(tag := SelfClosing))
    else if b == '>' then CloseTag(s)
    else if s.tag.SelfClosing? && !IsSpace(b) then On(s.(tag := Opening))
    else On(s)
  }

  predicate HasSuffix(s: string, t: string) {
    |t| <= |s| && s[|s| - |t|..] == t
  }

  /** Inside a comment, a CDATA section or an instruction, up to what ends it. */
  function FeedUpTo(s: Scan, b: char, end: string): Fed {
    var t := s.(lead := s.lead + [b]);
    On(if HasSuffix(t.lead, end) then t.(place := Outside) else t)
  }

  function Feed(s: Scan, b: char): Fed {
    match s.place
    case Outside => On(if b == '<' then s.(place := Lead, lead := "") else s)
    case Lead => FeedLead(s, b)
    case Tag => FeedTag(s, b)
    case Comment => FeedUpTo(s, b, "-->")
    case CData => FeedUpTo(s, b, "]]>")
    case Instruction => FeedUpTo(s, b, "?>")
  }

  function After(s: Scan, t: string): Scan {
    if t == "" then s else Feed(After(s, t[..|t| - 1]), t[|t| - 1]).scan
  }

  /** The last byte of t ends a document. */
  predicate Ends(s: Scan, t: string) {
    t != "" && Feed(After(s, t[..|t| - 1]), t[|t| - 1]).ended
  }

  /** No byte of t ends a document. */
  predicate Runs(s: Scan, t: string) {
    forall n :: 0 <= n <= |t| ==> !Ends(s, t[..n])
  }

  /** A text that is one document: it ends with its last byte, and with none before. */
  predicate IsDocument(d: string) {
    d != "" && !IsSpace(d[0]) && Ends(Initial, d) && Runs(Initial, d[..|d| - 1])
  }

  lemma {:induction false} AfterConcat(s: Scan, a: string, b: string)
    ensures After(s, a + b) == After(After(s, a), b)
  {
    if b == "" {
      assert a + b == a;
    } else {
      hide Feed;
      AfterConcat(s, a, b[..|b| - 1]);
      assert (a + b)[..|a + b| - 1] == a + b[..|b| - 1];
    }
  }

  lemma EndsConcat(s: Scan, a: string, b: string)
    requires b != ""
    ensures Ends(s, a + b) <==> Ends(After(s, a), b)
  {
    hide Feed, After;
    AfterConcat(s, a, b[..|b| - 1]);
    assert (a + b)[..|a + b| - 1] == a + b[..|b| - 1];
    assert (a + b)[|a + b| - 1] == b[|b| - 1];
  }

  lemma RunsConcat(s: Scan, a: string, b: string)
    requires Runs(s, a) && Runs(After(s, a), b)
    ensures Runs(s, a + b)
  {
    hide Ends;
    forall n | 0 <= n <= |a + b| ensures !Ends(s, (a + b)[..n]) {
      if n <= |a| {
        assert (a + b)[..n] == a[..n];
      } else {
        assert (a + b)[..n] == a + b[..n - |a|];
        EndsConcat(s, a, b[..n - |a|]);
      }
    }
  }

  // --- how it goes over a text

  /** A character that is in a tag for its own sake. */
  predicate NameChar(c: char) {
    c != '"' && c != '\'' && c != '/' && c != '>'
  }

  /** From s, t leads to u, and no byte of it ends a document. */
  ghost predicate Passes(s: Scan, t: string, u: Scan) {
    After(s, t) == u && Runs(s, t)
  }

  lemma PassesNone(s: Scan)
    ensures Passes(s, "", s)
  {
    RunsNone(s);
  }

  lemma PassesOne(s: Scan, c: char)
    requires !Feed(s, c).ended
    ensures Passes(s, [c], Feed(s, c).scan)
  {
    hide Feed, Ends;
    RunsNone(s);
    FeedIsEnds(s, "", c);
    RunsMore(s, "", c);
    assert "" + [c] == [c];
  }

  lemma PassesOn(s: Scan, a: string, u: Scan, b: string, w: Scan)
    requires Passes(s, a, u) && Passes(u, b, w)
    ensures Passes(s, a + b, w)
  {
    hide After, Ends, Runs;
    AfterConcat(s, a, b);
    RunsConcat(s, a, b);
  }

  /** From s, t runs up to its last byte, which ends the document. */
  ghost predicate Closes(s: Scan, t: string) {
    t != "" && Ends(s, t) && Runs(s, t[..|t| - 1])
  }

  lemma ClosesOn(s: Scan, a: string, u: Scan, c: char)
    requires Passes(s, a, u) && Feed(u, c).ended
    ensures Closes(s, a + [c])
  {
    hide Feed, Ends, Runs;
    FeedIsEnds(s, a, c);
    assert (a + [c])[..|a|] == a;
  }

  lemma ClosesAfter(s: Scan, a: string, u: Scan, b: string)
    requires Passes(s, a, u) && Closes(u, b)
    ensures Closes(s, a + b)
  {
    hide After, Runs;
    var init := b[..|b| - 1];
    RunsConcat(s, a, init);
    EndsConcat(s, a, b);
    assert (a + b)[..|a + b| - 1] == a + init;
  }

  /** In character data, at this depth. */
  predicate AtContent(s: Scan, depth: nat, started: bool) {
    s.place.Outside? && s.quote.None? && s.depth == depth && s.started == started
  }

  lemma {:induction false} ContentRuns(s: Scan, t: string)
    requires s.place.Outside? && '<' !in t
    ensures Passes(s, t, s)
  {
    if t == "" {
      PassesNone(s);
    } else {
      hide Passes;
      var init, c := t[..|t| - 1], t[|t| - 1];
      ContentRuns(s, init);
      PassesOne(s, c);
      PassesOn(s, init, s, [c], s);
      assert init + [c] == t;
    }
  }

  predicate InTag(s: Scan) {
    s.place.Tag? && s.quote.None? && !s.tag.SelfClosing?
  }

  lemma {:induction false} TagChars(s: Scan, t: string)
    requires InTag(s) && forall i :: 0 <= i < |t| ==> NameChar(t[i])
    ensures Passes(s, t, s)
  {
    if t == "" {
      PassesNone(s);
    } else {
      hide Passes;
      var init, c := t[..|t| - 1], t[|t| - 1];
      TagChars(s, init);
      PassesOne(s, c);
      PassesOn(s, init, s, [c], s);
      assert init + [c] == t;
    }
  }

  lemma {:induction false} QuotedChars(s: Scan, t: string)
    requires s.place.Tag? && s.quote.Some? && s.quote.value !in t
    ensures Passes(s, t, s)
  {
    if t == "" {
      PassesNone(s);
    } else {
      hide Passes;
      var init, c := t[..|t| - 1], t[|t| - 1];
      QuotedChars(s, init);
      PassesOne(s, c);
      PassesOn(s, init, s, [c], s);
      assert init + [c] == t;
    }
  }

  // --- one document of a stream

  class DocScanner {
    var place: Place
    var depth: int
    var started: bool
    var tag: TagKind
    var lead: string
    var quote: Option<char>

    function Now(): Scan
      reads this
    {
      Scan(place, depth, started, tag, lead, quote)
    }

    constructor ()
      ensures Now() == Initial
    {
      place, depth, started, tag, lead, quote := Outside, 0, false, Opening, "", None;
    }

    /** Advances by a byte, and says whether the document ended. */
    method FeedByte(b: char) returns (ended: bool)
      modifies this
      ensures Fed(Now(), ended) == Feed(old(Now()), b)
    {
      ended := false;
      match place {
        case Outside =>
          if b == '<' {
            place, lead := Lead, "";
          }
        case Lead =>
          lead := lead + [b];
          if lead[0] == '?' {
            place := Instruction;
            return false;
          } else if lead[0] == '!' {
            if lead == "!--" {
              place := Comment;
            } else if lead == "![CDATA[" {
              place := CData;
            } else if ProperPrefix(lead, "!--") || ProperPrefix(lead, "![CDATA[") {
            } else {
              place, tag := Tag, Opening;
            }
          } else if lead[0] == '/' {
            place, tag := Tag, Closing;
          } else {
            place, tag := Tag, Opening;
          }
          if b == '>' && place.Tag? {
            ended := EndTag();
          }
        case Tag =>
          if quote.Some? {
            if b == quote.value {
              quote := None;
            }
            return false;
          }
          if b == '"' || b == '\'' {
            quote := Some(b);
          } else if b == '/' {
            tag := SelfClosing;
          } else if b == '>' {
            ended := EndTag();
          } else if tag.SelfClosing? && !IsSpace(b) {
            tag := Opening;
          }
        case Comment =>
          lead := lead + [b];
          if HasSuffix(lead, "-->") {
            place := Outside;
          }
        case CData =>
          lead := lead + [b];
          if HasSuffix(lead, "]]>") {
            place := Outside;
          }
        case Instruction =>
          lead := lead + [b];
          if HasSuffix(lead, "?>") {
            place := Outside;
          }
      }
    }

    method EndTag() returns (ended: bool)
      modifies this
      ensures Fed(Now(), ended) == CloseTag(old(Now()))
    {
      place := Outside;
      match tag {
        case SelfClosing =>
          if !started {
            started := true;
            return true;
          }
        case Opening =>
          started := true;
          depth := depth + 1;
        case Closing =>
          depth := depth - 1;
          if started && depth == 0 {
            return true;
          }
      }
      return false;
    }
  }

  /** A stream of bytes, which ends cleanly or with an error. */
  class Reader {
    var rest: string
    const broken: bool

    constructor (data: string, broken: bool)
      ensures rest == data && this.broken == broken
    {
      rest, this.broken := data, broken;
    }

    method ReadByte() returns (b: Option<char>)
      modifies this
      ensures old(rest) == "" ==> b.None? && rest == ""
      ensures old(rest) != "" ==> b == Some(old(rest)[0]) && rest == old(rest)[1..]
    {
      if rest == "" {
        return None;
      }
      b := Some(rest[0]);
      rest := rest[1..];
    }
  }

  datatype Result = Document(bytes: string) | Eof | Truncated | TooLarge | Failed

  function Spaces(t: string): (n: nat)
    ensures n <= |t|
    ensures forall i :: 0 <= i < n ==> IsSpace(t[i])
    ensures n < |t| ==> !IsSpace(t[n])
  {
    if t == "" || !IsSpace(t[0]) then 0 else 1 + Spaces(t[1..])
  }

  /** What a read gives for the bytes t that remain, once white space is skipped: the document t begins with, or that t
      holds no whole document within the cap, and how the stream ends. */
  predicate Gives(t: string, broken: bool, r: Result, rest: string) {
    match r
    case Document(d) => IsDocument(d) && |d| <= MaxDocument && t == d + rest
    case TooLarge => |t| > MaxDocument && Runs(Initial, t[..MaxDocument]) && rest == t[MaxDocument + 1..]
    case Eof => t == "" && rest == "" && !broken
    case Truncated => t != "" && rest == "" && !broken && Runs(Initial, t) && |t| <= MaxDocument
    case Failed => rest == "" && broken && Runs(Initial, t) && |t| <= MaxDocument
  }

  lemma HoldsDocument(t: string, d: string)
    requires IsDocument(d) && d <= t
    ensures !Runs(Initial, t)
  {
    hide Ends;
    assert t[..|d|] == d;
  }

  /** No document is a beginning of another. */
  lemma NoneWithinAnother(t: string, d: string, e: string)
    requires d <= t && e <= t && IsDocument(d)
    ensures |d| < |e| ==> !Runs(Initial, e[..|e| - 1])
  {
    if |d| < |e| {
      assert d <= e[..|e| - 1];
      HoldsDocument(e[..|e| - 1], d);
    }
  }

  /** There is one answer: a stream that begins with a document gives that document, and what follows it. */
  lemma GivesTheDocument(t: string, broken: bool, r: Result, rest: string, d: string)
    requires Gives(t, broken, r, rest) && IsDocument(d) && |d| <= MaxDocument && d <= t
    ensures r == Document(d) && rest == t[|d|..]
  {
    hide Ends, Runs;
    HoldsDocument(t, d);
    if |t| > MaxDocument {
      assert d <= t[..MaxDocument];
      HoldsDocument(t[..MaxDocument], d);
    }
    if r.Document? {
      NoneWithinAnother(t, d, r.bytes);
      NoneWithinAnother(t, r.bytes, d);
    }
  }

  /** A stream that is cut inside a document gives no document at all. */
  lemma GivesNothing(t: string, broken: bool, r: Result, rest: string, d: string)
    requires Gives(t, broken, r, rest) && IsDocument(d) && |t| < |d| <= MaxDocument && t <= d && t != ""
    ensures r == if broken then Failed else Truncated
  {
    hide Ends, Runs;
    if r.Document? {
      NoneWithinAnother(d, r.bytes, d);
    }
  }

  lemma SpacesAre(t: string, n: nat)
    requires n <= |t| && (forall i :: 0 <= i < n ==> IsSpace(t[i])) && (n < |t| ==> !IsSpace(t[n]))
    ensures Spaces(t) == n
  {
  }

  /** Of all the bytes, the first `skipped` were white space, then came buf, and rest is still to come. */
  predicate SoFar(all: string, skipped: nat, buf: string, rest: string) {
    && skipped <= |all| && all[skipped..] == buf + rest
    && (forall i :: 0 <= i < skipped ==> IsSpace(all[i]))
    && (buf != "" ==> !IsSpace(buf[0]))
  }

  lemma SoFarSkip(all: string, skipped: nat, rest: string)
    requires SoFar(all, skipped, "", rest) && rest != "" && IsSpace(rest[0])
    ensures SoFar(all, skipped + 1, "", rest[1..])
  {
    assert all[skipped..][0] == all[skipped] && all[skipped..][1..] == all[skipped + 1..];
  }

  lemma SoFarTake(all: string, skipped: nat, buf: string, rest: string)
    requires SoFar(all, skipped, buf, rest) && rest != "" && (buf == "" ==> !IsSpace(rest[0]))
    ensures SoFar(all, skipped, buf + [rest[0]], rest[1..])
  {
    assert buf + rest == buf + [rest[0]] + rest[1..];
  }

  lemma SoFarAt(all: string, skipped: nat, buf: string, rest: string)
    requires SoFar(all, skipped, buf, rest) && (buf == "" ==> rest == "")
    ensures all[Spaces(all)..] == buf + rest
  {
    if buf != "" {
      assert all[skipped] == all[skipped..][0] == buf[0];
    }
    SpacesAre(all, skipped);
  }

  /** Reads exactly one document, and leaves what follows it. White space between documents belongs to neither. */
  method ReadDocument(r: Reader) returns (out: Result)
    modifies r
    ensures Gives(old(r.rest)[Spaces(old(r.rest))..], r.broken, out, r.rest)
  {
    hide Feed, Ends, Runs, Spaces, SoFar, After, Gives, IsDocument;
    ghost var all, skipped := r.rest, 0;
    var buf := "";
    var s := new DocScanner();
    RunsNone(Initial);
    SoFarFirst(all);
    while true
      invariant fresh(s) && s.Now() == After(Initial, buf) && Runs(Initial, buf) && |buf| <= MaxDocument
      invariant SoFar(all, skipped, buf, r.rest)
      decreases |r.rest|
    {
      ghost var left := r.rest;
      var b := r.ReadByte();
      if b.None? {
        SoFarAt(all, skipped, buf, "");
        assert buf + "" == buf;
        GivesEnd(buf, r.broken);
        if r.broken {
          return Failed;
        }
        return if |buf| == 0 then Eof else Truncated;
      }
      if |buf| == 0 && IsSpace(b.value) {
        SoFarSkip(all, skipped, left);
        skipped := skipped + 1;
        continue;
      }
      ghost var before := buf;
      SoFarTake(all, skipped, buf, left);
      buf := buf + [b.value];
      SoFarAt(all, skipped, buf, r.rest);
      if |buf| > MaxDocument {
        GivesTooLarge(before, b.value, r.rest, r.broken);
        return TooLarge;
      }
      var ended := s.FeedByte(b.value);
      FeedIsEnds(Initial, before, b.value);
      if ended {
        SoFarStarts(all, skipped, buf, r.rest);
        GivesDocument(before, b.value, r.rest, r.broken);
        return Document(buf);
      }
      RunsMore(Initial, before, b.value);
    }
  }

  lemma GivesEnd(t: string, broken: bool)
    requires Runs(Initial, t) && |t| <= MaxDocument
    ensures Gives(t, broken, if broken then Failed else if |t| == 0 then Eof else Truncated, "")
  {
  }

  lemma GivesTooLarge(before: string, b: char, rest: string, broken: bool)
    requires Runs(Initial, before) && |before| == MaxDocument
    ensures Gives(before + [b] + rest, broken, TooLarge, rest)
  {
    hide Runs;
    var t := before + [b] + rest;
    assert t[..MaxDocument] == before && t[MaxDocument + 1..] == rest;
  }

  lemma GivesDocument(before: string, b: char, rest: string, broken: bool)
    requires Runs(Initial, before) && Ends(Initial, before + [b]) && |before| < MaxDocument && !IsSpace((before + [b])[0])
    ensures Gives(before + [b] + rest, broken, Document(before + [b]), rest)
  {
    hide Runs, Ends;
    assert (before + [b])[..|before|] == before;
  }

  lemma SoFarFirst(all: string)
    ensures SoFar(all, 0, "", all)
    ensures After(Initial, "") == Initial
  {
    assert all[0..] == "" + all;
  }

  lemma SoFarStarts(all: string, skipped: nat, buf: string, rest: string)
    requires SoFar(all, skipped, buf, rest) && buf != ""
    ensures !IsSpace(buf[0])
  {
  }

  lemma RunsNone(s: Scan)
    ensures Runs(s, "")
  {
  }

  lemma FeedIsEnds(s: Scan, t: string, b: char)
    ensures After(s, t + [b]) == Feed(After(s, t), b).scan
    ensures Ends(s, t + [b]) == Feed(After(s, t), b).ended
  {
    hide Feed;
    assert (t + [b])[..|t|] == t;
  }

  lemma RunsMore(s: Scan, t: string, b: char)
    requires Runs(s, t) && !Ends(s, t + [b])
    ensures Runs(s, t + [b])
  {
    hide Ends;
    forall n | 0 <= n <= |t| + 1 ensures !Ends(s, (t + [b])[..n]) {
      if n <= |t| {
        assert (t + [b])[..n] == t[..n];
      } else {
        assert (t + [b])[..n] == t + [b];
      }
    }
  }

  // --- a stream of documents

  predicate Blank(t: string) {
    forall i :: 0 <= i < |t| ==> IsSpace(t[i])
  }

  /** The documents one after another, each behind its white space, and white space at the end. */
  function Stream(docs: seq<string>, gaps: seq<string>, end: string): string
    requires |docs| == |gaps|
  {
    if docs == [] then end else gaps[0] + docs[0] + Stream(docs[1..], gaps[1..], end)
  }

  predicate AllDocuments(docs: seq<string>) {
    forall i :: 0 <= i < |docs| ==> IsDocument(docs[i]) && |docs[i]| <= MaxDocument
  }

  predicate AllBlank(gaps: seq<string>) {
    forall i :: 0 <= i < |gaps| ==> Blank(gaps[i])
  }

  /** Reads document after document: a back-to-back stream comes apart into exactly the documents it was made of. */
  method ReadStream(r: Reader, ghost docs: seq<string>, ghost gaps: seq<string>, ghost end: string) returns (out: seq<string>, last: Result)
    requires |docs| == |gaps| && AllDocuments(docs) && AllBlank(gaps) && Blank(end)
    requires r.rest == Stream(docs, gaps, end)
    modifies r
    ensures out == docs && last == if r.broken then Failed else Eof
  {
    hide IsDocument, Spaces, Gives, Blank;
    out := [];
    ghost var n := 0;
    assert docs[0..] == docs && gaps[0..] == gaps;
    while true
      invariant n <= |docs| && out == docs[..n] && r.rest == Stream(docs[n..], gaps[n..], end)
      decreases |docs| - n
    {
      ghost var t := r.rest;
      last := ReadDocument(r);
      if n < |docs| {
        StreamFront(docs[n..], gaps[n..], end);
        GivesTheDocument(t[Spaces(t)..], r.broken, last, r.rest, docs[n]);
        assert docs[n..][1..] == docs[n + 1..] && gaps[n..][1..] == gaps[n + 1..];
      } else {
        StreamEnd(t, r.broken, last, r.rest, end);
      }
      if !last.Document? {
        return;
      }
      out := out + [last.bytes];
      n := n + 1;
    }
  }

  lemma DocumentStarts(d: string)
    requires IsDocument(d)
    ensures d != "" && !IsSpace(d[0])
  {
  }

  lemma StreamFront(docs: seq<string>, gaps: seq<string>, end: string)
    requires |docs| == |gaps| && docs != [] && AllDocuments(docs) && AllBlank(gaps)
    ensures var t := Stream(docs, gaps, end);
            && Spaces(t) == |gaps[0]| && docs[0] <= t[Spaces(t)..]
            && t[Spaces(t)..][|docs[0]|..] == Stream(docs[1..], gaps[1..], end)
  {
    hide IsDocument, Spaces;
    var t, d := Stream(docs, gaps, end), docs[0];
    DocumentStarts(d);
    assert t == gaps[0] + (d + Stream(docs[1..], gaps[1..], end));
    assert Blank(gaps[0]);
    SpacesAre(t, |gaps[0]|);
    assert t[|gaps[0]|..] == d + Stream(docs[1..], gaps[1..], end);
  }

  lemma StreamEnd(t: string, broken: bool, r: Result, rest: string, end: string)
    requires t == Stream([], [], end) && Blank(end) && Gives(t[Spaces(t)..], broken, r, rest)
    ensures r == if broken then Failed else Eof
  {
    hide IsDocument, Spaces, Runs;
    SpacesAre(t, |t|);
    if r.Document? {
      DocumentStarts(r.bytes);
    }
  }
}
