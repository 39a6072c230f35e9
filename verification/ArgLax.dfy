/** What the argument scanner takes, exactly: objects written more loosely than section 4 of RFC 8259 allows
    (internal/loop/argscan.go). */
module ArgLax {
  import opened Wrappers
  import opened Json
  import opened ArgScan

  // --- loosely written values

  /** Whether t leaves the next character escaped: it ends in an odd number of backslashes. */
  predicate Escapes(t: string) {
    t != "" && t[|t| - 1] == '\\' && !Escapes(t[..|t| - 1])
  }

  /** No quote in t ends a string: each has a backslash that is not itself escaped before it. */
  predicate InText(t: string) {
    forall i :: 0 <= i < |t| && t[i] == '"' ==> Escapes(t[..i])
  }

  predicate StringText(t: string) {
    InText(t) && !Escapes(t)
  }

  /** Any characters between quotes. */
  function Quote(t: string): string {
    ['"'] + t + ['"']
  }

  /** Between brackets anything goes, in any order, as long as strings and brackets close; any closing bracket closes any
      opening one. */
  datatype Raw = Char(c: char) | Str(text: string) | Nest(open: char, parts: seq<Raw>, close: char)

  predicate Good(r: Raw) {
    match r
    case Char(c) => ArgScan.Plain(c)
    case Str(t) => StringText(t)
    case Nest(open, parts, close) =>
      open in {'{', '['} && close in {'}', ']'} && forall i :: 0 <= i < |parts| ==> Good(parts[i])
  }

  function RawText(r: Raw): string {
    match r
    case Char(c) => [c]
    case Str(t) => Quote(t)
    case Nest(open, parts, close) => [open] + PartsText(r, |parts|) + [close]
  }

  /** The first n parts. */
  function PartsText(r: Raw, n: nat): string
    requires r.Nest? && n <= |r.parts|
    decreases r, n
  {
    if n == 0 then "" else PartsText(r, n - 1) + RawText(r.parts[n - 1])
  }

  /** The end of a scalar. */
  predicate Stops(c: char) {
    c == ',' || c == '}' || IsSpace(c)
  }

  /** A scalar is whatever comes up to a comma, a closing brace or white space; its first character may be one of the
      former two. */
  predicate IsRun(t: string) {
    && t != "" && t[0] !in {'"', '{', '['} && !IsSpace(t[0])
    && forall i :: 1 <= i < |t| ==> !Stops(t[i])
  }

  datatype LaxValue = Quoted(text: string) | Nested(raw: Raw) | Run(text: string)

  predicate ValidLaxValue(v: LaxValue) {
    match v
    case Quoted(t) => StringText(t)
    case Nested(r) => r.Nest? && Good(r)
    case Run(t) => IsRun(t)
  }

  function ValueText(v: LaxValue): string {
    match v
    case Quoted(t) => Quote(t)
    case Nested(r) => RawText(r)
    case Run(t) => t
  }

  // --- loosely written objects

  /** White space and commas. */
  predicate Gap(t: string) {
    forall i :: 0 <= i < |t| ==> IsSpace(t[i]) || t[i] == ','
  }

  /** A gap before the key, white space on both sides of the colon, and after the value. */
  datatype LaxMember = LaxMember(gap: string, key: string, mid: string, colon: string, value: LaxValue, after: string)

  predicate ValidLaxMember(m: LaxMember) {
    Gap(m.gap) && StringText(m.key) && Blank(m.mid) && Blank(m.colon) && ValidLaxValue(m.value) && Blank(m.after)
  }

  function UpToKey(m: LaxMember): string {
    m.gap + Quote(m.key)
  }

  function UpToColon(m: LaxMember): string {
    UpToKey(m) + m.mid + [':'] + m.colon
  }

  function LaxMemberText(m: LaxMember): string {
    UpToColon(m) + ValueText(m.value) + m.after
  }

  /** Members with a comma after each, then perhaps one without or another gap, then the brace; what follows it is not
      looked at. */
  datatype LaxEnd = Bare(gap: string) | WithMember(m: LaxMember)
  datatype Lax = Lax(lead: string, members: seq<LaxMember>, end: LaxEnd, rest: string)

  predicate ValidLax(x: Lax) {
    && Blank(x.lead) && (forall i :: 0 <= i < |x.members| ==> ValidLaxMember(x.members[i]))
    && (match x.end
        case Bare(gap) => Gap(gap)
        case WithMember(m) => ValidLaxMember(m))
  }

  function Head(lead: string, ms: seq<LaxMember>): string {
    if ms == [] then lead + ['{'] else Head(lead, ms[..|ms| - 1]) + LaxMemberText(ms[|ms| - 1]) + [',']
  }

  function EndText(end: LaxEnd): string {
    match end
    case Bare(gap) => gap
    case WithMember(m) => LaxMemberText(m)
  }

  function LaxText(x: Lax): string {
    Head(x.lead, x.members) + EndText(x.end) + ['}'] + x.rest
  }

  predicate Decodes(m: LaxMember, d: Decoder) {
    d(Quote(m.key)).Some?
  }

  /** Every key decodes. */
  predicate AllDecode(x: Lax, d: Decoder) {
    (forall i :: 0 <= i < |x.members| ==> Decodes(x.members[i], d)) && (x.end.WithMember? ==> Decodes(x.end.m, d))
  }

  function LaxFound(m: LaxMember, d: Decoder): Found
    requires Decodes(m, d)
  {
    Found(d(Quote(m.key)).value, ValueText(m.value))
  }

  function LaxFounds(ms: seq<LaxMember>, d: Decoder): seq<Found>
    requires forall i :: 0 <= i < |ms| ==> Decodes(ms[i], d)
  {
    if ms == [] then [] else LaxFounds(ms[..|ms| - 1], d) + [LaxFound(ms[|ms| - 1], d)]
  }

  function EndFound(end: LaxEnd, d: Decoder): seq<Found>
    requires end.WithMember? ==> Decodes(end.m, d)
  {
    if end.WithMember? then [LaxFound(end.m, d)] else []
  }

  // --- such a text is read

  lemma EscapesSnoc(t: string, c: char)
    ensures Escapes(t + [c]) <==> c == '\\' && !Escapes(t)
    ensures Escapes("") == false
  {
    assert (t + [c])[..|t|] == t;
  }

  lemma InTextSnoc(t: string, c: char)
    ensures InText(t + [c]) <==> InText(t) && (c == '"' ==> Escapes(t))
  {
    hide Escapes;
    var u := t + [c];
    assert u[..|t|] == t;
    assert forall i :: 0 <= i < |t| ==> u[..i] == t[..i] && u[i] == t[i];
    if InText(t + [c]) {
      assert u[|t|] == c;
    }
  }

  /** In a string, whether the next character is escaped or not. */
  predicate InAnyString(s: Scan) {
    s.phase.Key? || s.phase.ValString? || (s.phase.ValNested? && s.inStr)
  }

  lemma AnyStringChar(s: Scan, c: char, d: Decoder)
    requires InAnyString(s) && (c == '"' ==> s.esc)
    ensures Leads(s, [c], Taking(s, [c]).(esc := c == '\\' && !s.esc), d)
  {
    LeadsOne(s, c, d);
  }

  lemma {:induction false} StringIsTaken(s: Scan, t: string, d: Decoder)
    requires InAnyString(s) && !s.esc && InText(t)
    ensures Leads(s, t, Taking(s, t).(esc := Escapes(t)), d)
  {
    if t == "" {
      TakingMore(s, "", "");
      FeedNone(s, d);
    } else {
      hide Feed, Emitted, Leads, InText, Escapes;
      var init, c := t[..|t| - 1], t[|t| - 1];
      assert init + [c] == t;
      InTextSnoc(init, c);
      EscapesSnoc(init, c);
      StringIsTaken(s, init, d);
      var a := Taking(s, init).(esc := Escapes(init));
      AnyStringChar(a, c, d);
      LeadsOn(s, init, a, [c], Taking(a, [c]).(esc := c == '\\' && !a.esc), d);
      TakingMore(s, init, [c]);
    }
  }

  lemma StrWithin(s: Scan, t: string, d: Decoder)
    requires Within(s) && StringText(t)
    ensures Leads(s, Quote(t), Taking(s, Quote(t)), d)
  {
    hide Feed, Emitted, Leads, InText, Escapes;
    var a := Taking(s, ['"']).(inStr := true);
    LeadsOne(s, '"', d);
    StringIsTaken(a, t, d);
    var b := Taking(a, t);
    LeadsOne(b, '"', d);
    var c := Taking(b, ['"']).(inStr := false);
    LeadsOn(s, ['"'], a, t, b, d);
    LeadsOn(s, ['"'] + t, b, ['"'], c, d);
    assert c.value == Taking(s, Quote(t)).value;
  }

  lemma {:induction false} InsideStr(t: string, d: Decoder)
    requires StringText(t)
    ensures Inside(Quote(t), d)
  {
    hide Leads, StringText;
    forall s | Within(s) ensures Leads(s, Quote(t), Taking(s, Quote(t)), d) {
      StrWithin(s, t, d);
    }
  }

  lemma {:induction false} InsideRaw(r: Raw, d: Decoder)
    requires Good(r)
    ensures Inside(RawText(r), d)
    decreases r, 0
  {
    hide Inside, StringText;
    match r
    case Char(c) => InsideChar(c, d);
    case Str(t) => InsideStr(t, d);
    case Nest(open, parts, close) =>
      InsideParts(r, |parts|, d);
      InsideBrackets(open, PartsText(r, |parts|), close, d);
  }

  lemma {:induction false} InsideParts(r: Raw, n: nat, d: Decoder)
    requires r.Nest? && Good(r) && n <= |r.parts|
    ensures Inside(PartsText(r, n), d)
    decreases r, 0, n
  {
    hide Inside, StringText;
    if n == 0 {
      InsideNone(d);
    } else {
      InsideParts(r, n - 1, d);
      InsideRaw(r.parts[n - 1], d);
      InsideConcat(PartsText(r, n - 1), RawText(r.parts[n - 1]), d);
    }
  }

  lemma {:induction false} RunIsTaken(s: Scan, t: string, d: Decoder)
    requires s.phase.ValScalar? && forall i :: 0 <= i < |t| ==> !Stops(t[i])
    ensures Leads(s, t, Taking(s, t), d)
  {
    if t == "" {
      TakingMore(s, "", "");
      FeedNone(s, d);
    } else {
      hide Feed, Emitted, Leads;
      var init, c := t[..|t| - 1], t[|t| - 1];
      RunIsTaken(s, init, d);
      LeadsOne(Taking(s, init), c, d);
      LeadsOn(s, init, Taking(s, init), [c], Taking(Taking(s, init), [c]), d);
      TakingMore(s, init, [c]);
      assert init + [c] == t;
    }
  }

  lemma ReadRun(s: Scan, t: string, d: Decoder)
    requires s.phase.ValueStart? && IsRun(t)
    ensures Reads(s, t, d)
  {
    hide Feed, Emitted;
    var a := s.(value := [t[0]], esc := false, phase := ValScalar);
    LeadsOne(s, t[0], d);
    RunIsTaken(a, t[1..], d);
    LeadsOn(s, [t[0]], a, t[1..], Taking(a, t[1..]), d);
    assert [t[0]] + t[1..] == t;
  }

  lemma ReadQuote(s: Scan, t: string, d: Decoder)
    requires s.phase.ValueStart? && StringText(t) && d(s.keyRaw).Some?
    ensures Reads(s, Quote(t), d)
  {
    hide Feed, Emitted, Leads, InText, Escapes, Reads;
    var a := s.(value := ['"'], esc := false, phase := ValString);
    LeadsOne(s, '"', d);
    StringIsTaken(a, t, d);
    var b := Taking(a, t);
    LeadsOn(s, ['"'], a, t, b, d);
    EndsValue(s, ['"'] + t, b, '"', d);
  }

  lemma ReadLaxValue(s: Scan, v: LaxValue, d: Decoder)
    requires s.phase.ValueStart? && ValidLaxValue(v) && d(s.keyRaw).Some?
    ensures Reads(s, ValueText(v), d)
  {
    hide Reads, Inside, StringText, IsRun;
    match v
    case Quoted(t) => ReadQuote(s, t, d);
    case Nested(r) =>
      InsideParts(r, |r.parts|, d);
      ReadNested(s, r.open, PartsText(r, |r.parts|), r.close, d);
    case Run(t) => ReadRun(s, t, d);
  }

  lemma ReadQuoteKey(s: Scan, t: string, d: Decoder)
    requires s.phase.KeyOrEnd? && StringText(t)
    ensures Leads(s, Quote(t), s.(key := Quote(t), keyRaw := Quote(t), esc := false, phase := Colon), d)
  {
    hide Feed, Emitted, Leads, InText, Escapes;
    var a := s.(key := ['"'], esc := false, phase := Key);
    LeadsOne(s, '"', d);
    StringIsTaken(a, t, d);
    var b := Taking(a, t);
    LeadsOne(b, '"', d);
    var c := b.(key := b.key + ['"'], keyRaw := b.key + ['"'], phase := Colon);
    LeadsOn(s, ['"'], a, t, b, d);
    LeadsOn(s, ['"'] + t, b, ['"'], c, d);
    assert b.key + ['"'] == Quote(t);
  }

  lemma {:induction false} SkipGap(s: Scan, t: string, d: Decoder)
    requires s.phase.KeyOrEnd? && Gap(t)
    ensures Leads(s, t, s, d)
  {
    if t == "" {
      FeedNone(s, d);
    } else {
      var init, c := t[..|t| - 1], t[|t| - 1];
      SkipGap(s, init, d);
      LeadsOne(s, c, d);
      LeadsOn(s, init, s, [c], s, d);
      assert init + [c] == t;
    }
  }

  lemma ToLaxValue(s: Scan, m: LaxMember, d: Decoder)
    requires s.phase.KeyOrEnd? && ValidLaxMember(m)
    ensures Leads(s, UpToColon(m), s.(key := Quote(m.key), keyRaw := Quote(m.key), esc := false, phase := ValueStart), d)
  {
    hide Feed, Emitted, Leads, Quote, Gap, StringText, Blank, ValidLaxValue;
    var a := s.(key := Quote(m.key), keyRaw := Quote(m.key), esc := false, phase := Colon);
    var b := a.(phase := ValueStart);
    SkipGap(s, m.gap, d);
    ReadQuoteKey(s, m.key, d);
    LeadsOn(s, m.gap, s, Quote(m.key), a, d);
    SkipSpace(a, m.mid, d);
    LeadsOn(s, UpToKey(m), a, m.mid, a, d);
    LeadsOne(a, ':', d);
    LeadsOn(s, UpToKey(m) + m.mid, a, [':'], b, d);
    SkipSpace(b, m.colon, d);
    LeadsOn(s, UpToKey(m) + m.mid + [':'], b, m.colon, b, d);
  }

  lemma OneLaxMember(s: Scan, m: LaxMember, c: char, d: Decoder)
    requires s.phase.KeyOrEnd? && ValidLaxMember(m) && (c == ',' || c == '}') && Decodes(m, d)
    ensures Feed(s, LaxMemberText(m) + [c], d).phase == (if c == ',' then KeyOrEnd else Done)
    ensures Emitted(s, LaxMemberText(m) + [c], d) == [LaxFound(m, d)]
  {
    hide Feed, Emitted, Quote, ValueText, ValidLaxMember, UpToColon;
    var front, text := UpToColon(m), ValueText(m.value);
    var a := s.(key := Quote(m.key), keyRaw := Quote(m.key), esc := false, phase := ValueStart);
    ToLaxValue(s, m, d);
    LaxParts(m);
    ReadLaxValue(a, m.value, d);
    var u := Feed(a, text, d);
    Delimited(u, m.after, c, text, d);
    FeedConcat(a, text, m.after + [c], d);
    FeedConcat(s, front, text + (m.after + [c]), d);
    assert LaxMemberText(m) + [c] == front + (text + (m.after + [c]));
  }

  lemma LaxParts(m: LaxMember)
    requires ValidLaxMember(m)
    ensures ValidLaxValue(m.value) && Blank(m.after)
  {
  }

  lemma {:induction false} HeadIsRead(lead: string, ms: seq<LaxMember>, d: Decoder)
    requires Blank(lead) && forall i :: 0 <= i < |ms| ==> ValidLaxMember(ms[i]) && Decodes(ms[i], d)
    ensures Feed(Fresh, Head(lead, ms), d).phase == KeyOrEnd
    ensures Emitted(Fresh, Head(lead, ms), d) == LaxFounds(ms, d)
  {
    hide Feed, Emitted, LaxMemberText, ValidLaxMember, LaxFound, Decodes, Blank;
    if ms == [] {
      var open := Fresh.(phase := KeyOrEnd);
      SkipSpace(Fresh, lead, d);
      LeadsOne(Fresh, '{', d);
      LeadsOn(Fresh, lead, Fresh, ['{'], open, d);
    } else {
      var init, m := ms[..|ms| - 1], ms[|ms| - 1];
      HeadIsRead(lead, init, d);
      OneLaxMember(Feed(Fresh, Head(lead, init), d), m, ',', d);
      FeedConcat(Fresh, Head(lead, init), LaxMemberText(m) + [','], d);
      assert Head(lead, ms) == Head(lead, init) + (LaxMemberText(m) + [',']);
    }
  }

  lemma {:induction false} DoneStays(s: Scan, t: string, d: Decoder)
    requires s.phase.Done?
    ensures Leads(s, t, s, d)
  {
    if t == "" {
      FeedNone(s, d);
    } else {
      var init, c := t[..|t| - 1], t[|t| - 1];
      DoneStays(s, init, d);
      LeadsOne(s, c, d);
      LeadsOn(s, init, s, [c], s, d);
      assert init + [c] == t;
    }
  }

  lemma EndIsRead(s: Scan, end: LaxEnd, d: Decoder)
    requires s.phase.KeyOrEnd? && (match end case Bare(gap) => Gap(gap) case WithMember(m) => ValidLaxMember(m))
    requires end.WithMember? ==> Decodes(end.m, d)
    ensures Feed(s, EndText(end) + ['}'], d).phase == Done
    ensures Emitted(s, EndText(end) + ['}'], d) == EndFound(end, d)
  {
    hide Feed, Emitted, LaxMemberText, ValidLaxMember, LaxFound, Decodes, Gap;
    match end
    case Bare(gap) =>
      SkipGap(s, gap, d);
      LeadsOne(s, '}', d);
      LeadsOn(s, gap, s, ['}'], s.(phase := Done), d);
    case WithMember(m) => OneLaxMember(s, m, '}', d);
  }

  /** A loosely written object whose keys decode is read to its brace, and its members come out, as they are written. */
  lemma LaxIsRead(x: Lax, d: Decoder)
    requires ValidLax(x) && AllDecode(x, d)
    ensures Feed(Fresh, LaxText(x), d).phase == Done
    ensures Emitted(Fresh, LaxText(x), d) == LaxFounds(x.members, d) + EndFound(x.end, d)
  {
    hide Feed, Emitted, Head, EndText, ValidLaxMember, Decodes, LaxFounds, EndFound, Gap;
    HeadIsRead(x.lead, x.members, d);
    var head, tail := Head(x.lead, x.members), EndText(x.end) + ['}'];
    var s := Feed(Fresh, head, d);
    EndIsRead(s, x.end, d);
    var u := Feed(s, tail, d);
    DoneStays(u, x.rest, d);
    FeedConcat(s, tail, x.rest, d);
    FeedConcat(Fresh, head, tail + x.rest, d);
    assert LaxText(x) == head + (tail + x.rest);
  }

  // --- and nothing else is

  /** What stands before a value. */
  datatype Front = Front(gap: string, key: string, mid: string, colon: string)

  /** What the scanner has read: how far it is in which part of the object. In brackets, `frames` are the brackets that
      are open with what they hold so far, and str the string that is. */
  datatype Seen =
    | AtLead(lead: string)
    | InGap(lead: string, ms: seq<LaxMember>, gap: string)
    | InKey(lead: string, ms: seq<LaxMember>, gap: string, key: string)
    | AfterKey(lead: string, ms: seq<LaxMember>, gap: string, key: string, mid: string)
    | BeforeValue(lead: string, ms: seq<LaxMember>, front: Front)
    | InQuoted(lead: string, ms: seq<LaxMember>, front: Front, t: string)
    | InNested(lead: string, ms: seq<LaxMember>, front: Front, frames: seq<Raw>, str: Option<string>)
    | InRun(lead: string, ms: seq<LaxMember>, front: Front, t: string)
    | AfterMember(lead: string, ms: seq<LaxMember>, m: LaxMember)
    | Whole(x: Lax)

  function FrontText(h: Front): string {
    h.gap + Quote(h.key) + h.mid + [':'] + h.colon
  }

  function FrameText(r: Raw): string {
    if r.Nest? then [r.open] + PartsText(r, |r.parts|) else ""
  }

  predicate GoodFrames(fs: seq<Raw>) {
    forall i :: 0 <= i < |fs| ==> fs[i].Nest? && Good(fs[i])
  }

  function FramesText(fs: seq<Raw>): string {
    if fs == [] then "" else FramesText(fs[..|fs| - 1]) + FrameText(fs[|fs| - 1])
  }

  function StrText(str: Option<string>): string {
    if str.Some? then ['"'] + str.value else ""
  }

  predicate ValidFront(h: Front) {
    Gap(h.gap) && StringText(h.key) && Blank(h.mid) && Blank(h.colon)
  }

  predicate ValidMembers(ms: seq<LaxMember>, d: Decoder) {
    forall i :: 0 <= i < |ms| ==> ValidLaxMember(ms[i]) && Decodes(ms[i], d)
  }

  /** The part of the value that is read. */
  function SeenValue(z: Seen): string {
    match z
    case InQuoted(_, _, _, t) => ['"'] + t
    case InNested(_, _, _, frames, str) => FramesText(frames) + StrText(str)
    case InRun(_, _, _, t) => t
    case _ => ""
  }

  function SeenText(z: Seen): string {
    match z
    case AtLead(lead) => lead
    case InGap(lead, ms, gap) => Head(lead, ms) + gap
    case InKey(lead, ms, gap, key) => Head(lead, ms) + (gap + ['"'] + key)
    case AfterKey(lead, ms, gap, key, mid) => Head(lead, ms) + (gap + Quote(key) + mid)
    case AfterMember(lead, ms, m) => Head(lead, ms) + LaxMemberText(m)
    case Whole(x) => LaxText(x)
    case _ => Head(z.lead, z.ms) + (FrontText(z.front) + SeenValue(z))
  }

  /** z is what the scanner s has read. */
  predicate Fits(z: Seen, s: Scan, d: Decoder) {
    match z
    case AtLead(lead) => s == Fresh && Blank(lead)
    case InGap(lead, ms, gap) => s.phase.KeyOrEnd? && Blank(lead) && ValidMembers(ms, d) && Gap(gap)
    case InKey(lead, ms, gap, key) =>
      s.phase.Key? && Blank(lead) && ValidMembers(ms, d) && Gap(gap) && s.key == ['"'] + key && InText(key) && s.esc == Escapes(key)
    case AfterKey(lead, ms, gap, key, mid) =>
      s.phase.Colon? && Blank(lead) && ValidMembers(ms, d) && Gap(gap) && s.keyRaw == Quote(key) && StringText(key) && Blank(mid)
    case AfterMember(lead, ms, m) =>
      s.phase.AfterValue? && Blank(lead) && ValidMembers(ms, d) && ValidLaxMember(m) && Decodes(m, d)
    case Whole(x) => s.phase.Done? && ValidLax(x) && AllDecode(x, d)
    case _ =>
      && Blank(z.lead) && ValidMembers(z.ms, d) && ValidFront(z.front) && s.keyRaw == Quote(z.front.key)
      && FitsValue(z, s)
  }

  predicate FitsValue(z: Seen, s: Scan) {
    match z
    case BeforeValue(_, _, _) => s.phase.ValueStart?
    case InQuoted(_, _, _, t) => s.phase.ValString? && s.value == SeenValue(z) && InText(t) && s.esc == Escapes(t)
    case InNested(_, _, _, frames, str) =>
      && GoodFrames(frames) && s.value == SeenValue(z) && s.phase.ValNested? && s.depth == |frames| >= 1 && s.inStr == str.Some?
      && (str.Some? ==> InText(str.value)) && s.esc == (str.Some? && Escapes(str.value))
    case InRun(_, _, _, t) => s.phase.ValScalar? && s.value == t && IsRun(t)
    case _ => true
  }

  /** The members that are out. */
  function SeenFounds(z: Seen, s: Scan, d: Decoder): seq<Found>
    requires Fits(z, s, d)
  {
    match z
    case AtLead(_) => []
    case AfterMember(_, ms, m) => LaxFounds(ms, d) + [LaxFound(m, d)]
    case Whole(x) => LaxFounds(x.members, d) + EndFound(x.end, d)
    case _ => LaxFounds(z.ms, d)
  }

  /** After one more character, y is what the scanner has read. */
  predicate Then(z: Seen, s: Scan, c: char, y: Seen, d: Decoder)
    requires Fits(z, s, d)
  {
    var m := Next(s, c, d);
    && Fits(y, m.scan, d) && SeenText(y) == SeenText(z) + [c]
    && SeenFounds(y, m.scan, d) == SeenFounds(z, s, d) + if m.found.Some? then [m.found.value] else []
  }

  lemma SeeLead(z: Seen, s: Scan, c: char, d: Decoder) returns (y: Seen)
    requires z.AtLead? && Fits(z, s, d) && !Next(s, c, d).scan.phase.Dead?
    ensures Then(z, s, c, y, d)
  {
    y := if c == '{' then InGap(z.lead, [], "") else AtLead(z.lead + [c]);
  }

  lemma SeeGap(z: Seen, s: Scan, c: char, d: Decoder) returns (y: Seen)
    requires z.InGap? && Fits(z, s, d) && !Next(s, c, d).scan.phase.Dead?
    ensures Then(z, s, c, y, d)
  {
    hide ValidLaxMember, Decodes, Head, LaxFound, LaxMemberText, Blank;
    if c == '"' {
      y := InKey(z.lead, z.ms, z.gap, "");
      assert z.gap + ['"'] + "" == z.gap + ['"'];
    } else if c == '}' {
      y := Whole(Lax(z.lead, z.ms, Bare(z.gap), ""));
      assert Head(z.lead, z.ms) + z.gap + ['}'] + "" == Head(z.lead, z.ms) + z.gap + ['}'];
    } else {
      y := InGap(z.lead, z.ms, z.gap + [c]);
    }
  }

  lemma SeeKey(z: Seen, s: Scan, c: char, d: Decoder) returns (y: Seen)
    requires z.InKey? && Fits(z, s, d)
    ensures Then(z, s, c, y, d)
  {
    hide ValidLaxMember, Decodes, Head, LaxFound, Gap, Blank, InText, Escapes;
    InTextSnoc(z.key, c);
    EscapesSnoc(z.key, c);
    if c == '"' && !s.esc {
      y := AfterKey(z.lead, z.ms, z.gap, z.key, "");
      assert z.gap + Quote(z.key) + "" == z.gap + ['"'] + z.key + [c];
      NoneBlank();
    } else {
      y := InKey(z.lead, z.ms, z.gap, z.key + [c]);
      assert z.gap + ['"'] + (z.key + [c]) == z.gap + ['"'] + z.key + [c];
    }
  }

  lemma NoneBlank()
    ensures Blank("") && Gap("")
  {
  }

  lemma SeeColon(z: Seen, s: Scan, c: char, d: Decoder) returns (y: Seen)
    requires z.AfterKey? && Fits(z, s, d) && !Next(s, c, d).scan.phase.Dead?
    ensures Then(z, s, c, y, d)
  {
    hide ValidLaxMember, Decodes, Head, LaxFound, Gap, StringText, Quote;
    if c == ':' {
      y := BeforeValue(z.lead, z.ms, Front(z.gap, z.key, z.mid, ""));
      assert FrontText(y.front) + "" == z.gap + Quote(z.key) + z.mid + [c];
    } else {
      y := AfterKey(z.lead, z.ms, z.gap, z.key, z.mid + [c]);
      assert z.gap + Quote(z.key) + (z.mid + [c]) == z.gap + Quote(z.key) + z.mid + [c];
    }
  }

  lemma SeeValue(z: Seen, s: Scan, c: char, d: Decoder) returns (y: Seen)
    requires z.BeforeValue? && Fits(z, s, d)
    ensures Then(z, s, c, y, d)
  {
    hide ValidLaxMember, Decodes, Head, LaxFound, Gap, StringText, Quote;
    assert FrontText(z.front) + "" + [c] == FrontText(z.front) + [c];
    assert !Escapes("") && InText("");
    if IsSpace(c) {
      var h := z.front.(colon := z.front.colon + [c]);
      y := BeforeValue(z.lead, z.ms, h);
      assert FrontText(h) == FrontText(z.front) + [c];
    } else if c == '"' {
      y := InQuoted(z.lead, z.ms, z.front, "");
      assert ['"'] + "" == [c];
    } else if c == '{' || c == '[' {
      var f := Nest(c, [], '}');
      y := InNested(z.lead, z.ms, z.front, [f], None);
      assert [f][..0] == [];
      assert FramesText([f]) + "" == [c];
    } else {
      y := InRun(z.lead, z.ms, z.front, [c]);
    }
  }

  /** The member whose value just ended. */
  function Made(h: Front, v: LaxValue): LaxMember {
    LaxMember(h.gap, h.key, h.mid, h.colon, v, "")
  }

  lemma MadeMember(z: Seen, s: Scan, u: Scan, v: LaxValue, d: Decoder)
    requires (z.InQuoted? || z.InNested? || z.InRun?) && Fits(z, s, d) && ValidLaxValue(v)
    requires u.keyRaw == s.keyRaw && u.value == ValueText(v) && d(s.keyRaw).Some?
    ensures var y := AfterMember(z.lead, z.ms, Made(z.front, v));
            && Fits(y, Complete(u, d).scan, d) && SeenText(y) == Head(z.lead, z.ms) + (FrontText(z.front) + ValueText(v))
            && Complete(u, d).found.Some?
            && SeenFounds(y, Complete(u, d).scan, d) == SeenFounds(z, s, d) + [Complete(u, d).found.value]
  {
    hide ValidLaxMember, Head, ValueText, Gap, StringText, Quote, ValidLaxValue;
    var m := Made(z.front, v);
    assert LaxMemberText(m) == FrontText(z.front) + ValueText(v);
    MadeValid(z.front, v);
  }

  lemma MadeValid(h: Front, v: LaxValue)
    requires ValidFront(h) && ValidLaxValue(v)
    ensures ValidLaxMember(Made(h, v))
  {
  }

  lemma SeeQuoted(z: Seen, s: Scan, c: char, d: Decoder) returns (y: Seen)
    requires z.InQuoted? && Fits(z, s, d) && !Next(s, c, d).scan.phase.Dead?
    ensures Then(z, s, c, y, d)
  {
    hide ValidLaxMember, Decodes, Head, LaxFound, ValidFront, InText, Escapes, FrontText, LaxMemberText;
    InTextSnoc(z.t, c);
    EscapesSnoc(z.t, c);
    var front, value := FrontText(z.front), SeenValue(z);
    assert front + value + [c] == front + (value + [c]);
    if c == '"' && !s.esc {
      MadeMember(z, s, s.(value := s.value + [c]), Quoted(z.t), d);
      y := AfterMember(z.lead, z.ms, Made(z.front, Quoted(z.t)));
    } else {
      y := InQuoted(z.lead, z.ms, z.front, z.t + [c]);
      assert ['"'] + (z.t + [c]) == value + [c];
    }
  }

  lemma {:induction false} PartsSame(r: Raw, q: Raw, n: nat)
    requires r.Nest? && q.Nest? && n <= |r.parts| && n <= |q.parts| && r.parts[..n] == q.parts[..n]
    ensures PartsText(r, n) == PartsText(q, n)
  {
    if n > 0 {
      assert r.parts[..n][n - 1] == q.parts[..n][n - 1];
      assert r.parts[..n - 1] == r.parts[..n][..n - 1] == q.parts[..n][..n - 1] == q.parts[..n - 1];
      PartsSame(r, q, n - 1);
    }
  }

  /** A part more in the innermost brackets. */
  function WithPart(fs: seq<Raw>, p: Raw): seq<Raw>
    requires fs != [] && GoodFrames(fs)
  {
    var f := fs[|fs| - 1];
    fs[..|fs| - 1] + [Nest(f.open, f.parts + [p], f.close)]
  }

  lemma {:induction false} PartMore(fs: seq<Raw>, p: Raw)
    requires fs != [] && GoodFrames(fs) && Good(p)
    ensures GoodFrames(WithPart(fs, p)) && |WithPart(fs, p)| == |fs|
    ensures FramesText(WithPart(fs, p)) == FramesText(fs) + RawText(p)
  {
    hide RawText, FrameText, Good;
    FrameGrows(fs[|fs| - 1], p);
    assert WithPart(fs, p)[..|fs| - 1] == fs[..|fs| - 1];
  }

  lemma {:induction false} PartGood(f: Raw, p: Raw)
    requires f.Nest? && Good(f) && Good(p)
    ensures Good(Nest(f.open, f.parts + [p], f.close))
  {
  }

  lemma {:induction false} PartsLast(r: Raw)
    requires r.Nest? && r.parts != []
    ensures PartsText(r, |r.parts|) == PartsText(r, |r.parts| - 1) + RawText(r.parts[|r.parts| - 1])
  {
    hide RawText;
  }

  lemma {:induction false} FrameGrows(f: Raw, p: Raw)
    requires f.Nest? && Good(f) && Good(p)
    ensures var g := Nest(f.open, f.parts + [p], f.close);
            Good(g) && FrameText(g) == FrameText(f) + RawText(p)
  {
    hide RawText, PartsText, Good;
    var g := Nest(f.open, f.parts + [p], f.close);
    PartGood(f, p);
    assert g.parts[..|f.parts|] == f.parts[..|f.parts|];
    PartsSame(g, f, |f.parts|);
    PartsLast(g);
  }

  /** The innermost brackets close. */
  lemma {:induction false} Closed(fs: seq<Raw>, close: char)
    requires fs != [] && GoodFrames(fs) && close in {'}', ']'}
    ensures var f := fs[|fs| - 1];
            var r := Nest(f.open, f.parts, close);
            && Good(r) && GoodFrames(fs[..|fs| - 1]) && FramesText(fs) + [close] == FramesText(fs[..|fs| - 1]) + RawText(r)
  {
    hide RawText, FrameText;
    FrameCloses(fs[|fs| - 1], close);
  }

  lemma {:induction false} FrameCloses(f: Raw, close: char)
    requires f.Nest? && Good(f) && close in {'}', ']'}
    ensures Good(Nest(f.open, f.parts, close)) && RawText(Nest(f.open, f.parts, close)) == FrameText(f) + [close]
  {
    PartsSame(f, Nest(f.open, f.parts, close), |f.parts|);
  }

  lemma SeeNestedStr(z: Seen, s: Scan, c: char, d: Decoder) returns (y: Seen)
    requires z.InNested? && z.str.Some? && Fits(z, s, d)
    ensures Then(z, s, c, y, d)
  {
    hide ValidLaxMember, Decodes, Head, LaxFound, ValidFront, InText, Escapes, FrontText, FramesText, GoodFrames;
    var t := z.str.value;
    InTextSnoc(t, c);
    EscapesSnoc(t, c);
    var front, value := FrontText(z.front), SeenValue(z);
    assert front + value + [c] == front + (value + [c]);
    if c == '"' && !s.esc {
      PartMore(z.frames, Str(t));
      y := InNested(z.lead, z.ms, z.front, WithPart(z.frames, Str(t)), None);
      assert FramesText(y.frames) + "" == value + [c];
    } else {
      y := InNested(z.lead, z.ms, z.front, z.frames, Some(t + [c]));
      assert FramesText(z.frames) + (['"'] + (t + [c])) == value + [c];
    }
  }

  lemma SeeNestedChar(z: Seen, s: Scan, c: char, d: Decoder) returns (y: Seen)
    requires z.InNested? && z.str.None? && Fits(z, s, d) && c !in {'}', ']'}
    ensures Then(z, s, c, y, d)
  {
    hide ValidLaxMember, Decodes, Head, LaxFound, ValidFront, FrontText, FramesText;
    var front, value := FrontText(z.front), SeenValue(z);
    assert front + value + [c] == front + (value + [c]);
    assert !Escapes("") && InText("");
    if c == '"' {
      y := InNested(z.lead, z.ms, z.front, z.frames, Some(""));
      assert FramesText(z.frames) + (['"'] + "") == value + [c];
    } else if c == '{' || c == '[' {
      var more := z.frames + [Nest(c, [], '}')];
      y := InNested(z.lead, z.ms, z.front, more, None);
      OpenMore(z.frames, c);
      assert FramesText(more) + "" == value + [c];
    } else {
      PartMore(z.frames, Char(c));
      y := InNested(z.lead, z.ms, z.front, WithPart(z.frames, Char(c)), None);
      assert FramesText(y.frames) + "" == value + [c];
    }
  }

  lemma {:induction false} OpenMore(fs: seq<Raw>, open: char)
    requires GoodFrames(fs) && open in {'{', '['}
    ensures GoodFrames(fs + [Nest(open, [], '}')]) && FramesText(fs + [Nest(open, [], '}')]) == FramesText(fs) + [open]
  {
    var f := Nest(open, [], '}');
    assert (fs + [f])[..|fs|] == fs;
    assert FrameText(f) == [open];
  }

  /** The outermost brackets close: the value is whole. */
  lemma SeeLastClose(z: Seen, s: Scan, c: char, d: Decoder) returns (y: Seen)
    requires z.InNested? && z.str.None? && Fits(z, s, d) && c in {'}', ']'} && !Next(s, c, d).scan.phase.Dead? && |z.frames| == 1
    ensures Then(z, s, c, y, d)
  {
    hide ValidLaxMember, Decodes, Head, LaxFound, ValidFront, FrontText, FramesText, LaxMemberText, RawText, Good;
    hide InText, Escapes, LaxFounds;
    var front, value := FrontText(z.front), SeenValue(z);
    assert front + value + [c] == front + (value + [c]);
    var f := z.frames[0];
    var r := Nest(f.open, f.parts, c);
    OneFrame(z.frames, c);
    assert value == FramesText(z.frames) + "" == FramesText(z.frames);
    MadeMember(z, s, s.(value := s.value + [c], depth := 0), Nested(r), d);
    y := AfterMember(z.lead, z.ms, Made(z.front, Nested(r)));
  }

  lemma OneFrame(fs: seq<Raw>, close: char)
    requires |fs| == 1 && GoodFrames(fs) && close in {'}', ']'}
    ensures var r := Nest(fs[0].open, fs[0].parts, close);
            Good(r) && FramesText(fs) + [close] == RawText(r)
  {
    hide Good, RawText, FramesText;
    Closed(fs, close);
    NoFrames(fs[..0]);
  }

  /** Inner brackets close: they are a part of those around them. */
  lemma SeeInnerClose(z: Seen, s: Scan, c: char, d: Decoder) returns (y: Seen)
    requires z.InNested? && z.str.None? && Fits(z, s, d) && c in {'}', ']'} && |z.frames| > 1
    ensures Then(z, s, c, y, d)
  {
    hide ValidLaxMember, Decodes, Head, LaxFound, ValidFront, FrontText, FramesText, LaxMemberText, RawText, Good;
    var front, value := FrontText(z.front), SeenValue(z);
    assert front + value + [c] == front + (value + [c]);
    var n := |z.frames|;
    var f := z.frames[n - 1];
    var r := Nest(f.open, f.parts, c);
    Closed(z.frames, c);
    assert value + [c] == FramesText(z.frames) + [c];
    PartMore(z.frames[..n - 1], r);
    y := InNested(z.lead, z.ms, z.front, WithPart(z.frames[..n - 1], r), None);
    assert FramesText(y.frames) + "" == value + [c];
  }

  lemma SeeNestedClose(z: Seen, s: Scan, c: char, d: Decoder) returns (y: Seen)
    requires z.InNested? && z.str.None? && Fits(z, s, d) && c in {'}', ']'} && !Next(s, c, d).scan.phase.Dead?
    ensures Then(z, s, c, y, d)
  {
    hide Then, Next;
    if |z.frames| == 1 {
      y := SeeLastClose(z, s, c, d);
    } else {
      y := SeeInnerClose(z, s, c, d);
    }
  }

  lemma NoFrames(fs: seq<Raw>)
    requires fs == []
    ensures FramesText(fs) == ""
  {
  }

  lemma SeeRun(z: Seen, s: Scan, c: char, d: Decoder) returns (y: Seen)
    requires z.InRun? && Fits(z, s, d) && !Next(s, c, d).scan.phase.Dead?
    ensures Then(z, s, c, y, d)
  {
    hide ValidLaxMember, Decodes, Head, LaxFound, ValidFront, FrontText, LaxMemberText;
    var front, value := FrontText(z.front), SeenValue(z);
    assert front + value + [c] == front + (value + [c]);
    if Stops(c) {
      MadeMember(z, s, s, Run(z.t), d);
      var w := AfterMember(z.lead, z.ms, Made(z.front, Run(z.t)));
      y := SeeAfter(w, Complete(s, d).scan, c, d);
    } else {
      y := InRun(z.lead, z.ms, z.front, z.t + [c]);
    }
  }

  lemma SeeAfter(z: Seen, s: Scan, c: char, d: Decoder) returns (y: Seen)
    requires z.AfterMember? && Fits(z, s, d) && !Next(s, c, d).scan.phase.Dead?
    ensures Then(z, s, c, y, d)
  {
    hide Decodes, Head, LaxFound, Gap, ValidLaxMember, LaxMemberText;
    if c == ',' {
      y := InGap(z.lead, z.ms + [z.m], "");
      assert (z.ms + [z.m])[..|z.ms|] == z.ms;
      MembersMore(z.lead, z.ms, z.m, d);
      NoneBlank();
      assert Head(z.lead, z.ms + [z.m]) + "" == Head(z.lead, z.ms) + LaxMemberText(z.m) + [c];
    } else if c == '}' {
      y := Whole(Lax(z.lead, z.ms, WithMember(z.m), ""));
      assert Head(z.lead, z.ms) + LaxMemberText(z.m) + ['}'] + "" == Head(z.lead, z.ms) + LaxMemberText(z.m) + [c];
    } else {
      var m := z.m.(after := z.m.after + [c]);
      y := AfterMember(z.lead, z.ms, m);
      AfterMore(z.m, c, d);
      assert Head(z.lead, z.ms) + LaxMemberText(m) == Head(z.lead, z.ms) + LaxMemberText(z.m) + [c];
    }
  }

  lemma MembersMore(lead: string, ms: seq<LaxMember>, m: LaxMember, d: Decoder)
    requires ValidMembers(ms, d) && ValidLaxMember(m) && Decodes(m, d)
    ensures ValidMembers(ms + [m], d) && LaxFounds(ms + [m], d) == LaxFounds(ms, d) + [LaxFound(m, d)]
    ensures Head(lead, ms + [m]) == Head(lead, ms) + LaxMemberText(m) + [',']
  {
    assert (ms + [m])[..|ms|] == ms;
  }

  lemma AfterMore(m: LaxMember, c: char, d: Decoder)
    requires ValidLaxMember(m) && IsSpace(c) && Decodes(m, d)
    ensures var more := m.(after := m.after + [c]);
            && ValidLaxMember(more) && Decodes(more, d) && LaxMemberText(more) == LaxMemberText(m) + [c] && LaxFound(more, d) == LaxFound(m, d)
  {
    hide ValueText, Gap, StringText;
    var more := m.(after := m.after + [c]);
    assert UpToColon(more) == UpToColon(m);
  }

  lemma SeeWhole(z: Seen, s: Scan, c: char, d: Decoder) returns (y: Seen)
    requires z.Whole? && Fits(z, s, d)
    ensures Then(z, s, c, y, d)
  {
    hide Head, EndText, ValidLaxMember, Decodes, LaxFounds, EndFound, Gap, Blank;
    y := Whole(z.x.(rest := z.x.rest + [c]));
    assert LaxText(y.x) == LaxText(z.x) + [c];
  }

  lemma SeeNext(z: Seen, s: Scan, c: char, d: Decoder) returns (y: Seen)
    requires Fits(z, s, d) && !Next(s, c, d).scan.phase.Dead?
    ensures Then(z, s, c, y, d)
  {
    hide Then, Next, Fits;
    match z
    case AtLead(_) => y := SeeLead(z, s, c, d);
    case InGap(_, _, _) => y := SeeGap(z, s, c, d);
    case InKey(_, _, _, _) => y := SeeKey(z, s, c, d);
    case AfterKey(_, _, _, _, _) => y := SeeColon(z, s, c, d);
    case BeforeValue(_, _, _) => y := SeeValue(z, s, c, d);
    case InQuoted(_, _, _, _) => y := SeeQuoted(z, s, c, d);
    case InRun(_, _, _, _) => y := SeeRun(z, s, c, d);
    case AfterMember(_, _, _) => y := SeeAfter(z, s, c, d);
    case Whole(_) => y := SeeWhole(z, s, c, d);
    case InNested(_, _, _, _, str) =>
      if str.Some? {
        y := SeeNestedStr(z, s, c, d);
      } else if c in {'}', ']'} {
        y := SeeNestedClose(z, s, c, d);
      } else {
        y := SeeNestedChar(z, s, c, d);
      }
  }

  /** As long as the scanner is not dead, what it has read is the beginning of a loosely written object. */
  lemma {:induction false} Sees(t: string, d: Decoder) returns (z: Seen)
    requires !Feed(Fresh, t, d).phase.Dead?
    ensures Fits(z, Feed(Fresh, t, d), d) && SeenText(z) == t && SeenFounds(z, Feed(Fresh, t, d), d) == Emitted(Fresh, t, d)
  {
    if t == "" {
      z := AtLead("");
    } else {
      hide Next, Fits, SeenText, SeenFounds, Feed, Emitted;
      var init, c := t[..|t| - 1], t[|t| - 1];
      var s := Feed(Fresh, init, d);
      assert init + [c] == t;
      FeedConcat(Fresh, init, [c], d);
      FeedOne(s, c, d);
      DeadStays(s, c, d);
      var y := Sees(init, d);
      z := SeeNext(y, s, c, d);
    }
  }

  lemma DeadStays(s: Scan, c: char, d: Decoder)
    ensures s.phase.Dead? ==> Next(s, c, d).scan.phase.Dead?
  {
  }

  lemma DoneIsLax(t: string, d: Decoder) returns (x: Lax)
    requires Feed(Fresh, t, d).phase.Done?
    ensures ValidLax(x) && AllDecode(x, d) && LaxText(x) == t
    ensures Emitted(Fresh, t, d) == LaxFounds(x.members, d) + EndFound(x.end, d)
  {
    hide Feed, Emitted, Next, ValidLax, AllDecode, LaxText, LaxFounds, EndFound;
    var z := Sees(t, d);
    x := z.x;
  }

  /** The scanner is done exactly on the loosely written objects whose keys decode. */
  lemma TakesExactly(t: string, d: Decoder)
    ensures Feed(Fresh, t, d).phase.Done? <==> exists x :: ValidLax(x) && AllDecode(x, d) && LaxText(x) == t
  {
    hide Feed, ValidLax, AllDecode, LaxText;
    if Feed(Fresh, t, d).phase.Done? {
      var x := DoneIsLax(t, d);
    }
    if exists x :: ValidLax(x) && AllDecode(x, d) && LaxText(x) == t {
      var x :| ValidLax(x) && AllDecode(x, d) && LaxText(x) == t;
      LaxIsRead(x, d);
    }
  }

  const KeyA: string := ['"', 'a', '"']

  lemma MemberA(v: LaxValue)
    requires ValidLaxValue(v)
    ensures var m := LaxMember("", "a", "", "", v, "");
            ValidLaxMember(m) && Quote(m.key) == KeyA && LaxMemberText(m) == KeyA + [':'] + ValueText(v)
  {
    hide ValidLaxValue, ValueText;
    assert !Escapes("a");
    assert Quote("a") == KeyA;
  }

  /** Whatever may stand for a value may stand in an object of one member, with a comma after it or without. */
  lemma OneMemberPasses(v: LaxValue, d: Decoder)
    requires ValidLaxValue(v) && d(KeyA).Some?
    ensures Feed(Fresh, ['{'] + (KeyA + [':'] + ValueText(v)) + ['}'], d).phase.Done?
    ensures Feed(Fresh, ['{'] + (KeyA + [':'] + ValueText(v)) + [',', '}'], d).phase.Done?
  {
    hide Feed, ValueText, ValidLaxMember, Quote, LaxMemberText;
    var m := LaxMember("", "a", "", "", v, "");
    MemberA(v);
    var x, y := Lax("", [], WithMember(m), ""), Lax("", [m], Bare(""), "");
    LaxIsRead(x, d);
    LaxIsRead(y, d);
    assert LaxText(x) == ['{'] + LaxMemberText(m) + ['}'];
    assert [m][..0] == [];
    assert Head("", [m]) == ['{'] + LaxMemberText(m) + [','];
    assert LaxText(y) == ['{'] + LaxMemberText(m) + [',', '}'];
  }

  /** A bare word, brackets of two kinds, and a comma after the last member pass, which section 4 does not allow. */
  lemma LoosePasses(d: Decoder)
    requires d(KeyA).Some?
    ensures Feed(Fresh, ['{'] + (KeyA + [':'] + ['x']) + ['}'], d).phase.Done?
    ensures Feed(Fresh, ['{'] + (KeyA + [':'] + ['[', '}']) + ['}'], d).phase.Done?
    ensures Feed(Fresh, ['{'] + (KeyA + [':'] + ['x']) + [',', '}'], d).phase.Done?
  {
    hide Feed;
    var brackets := Nest('[', [], '}');
    OneMemberPasses(Run(['x']), d);
    OneMemberPasses(Nested(brackets), d);
    assert PartsText(brackets, 0) == "";
    assert RawText(brackets) == ['[', '}'];
  }
}
