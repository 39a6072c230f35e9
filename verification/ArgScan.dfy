/** A byte-by-byte scanner of tool arguments, and what it gives of any text (internal/loop/argscan.go). */
module ArgScan {
  import opened Wrappers
  import opened Json

  datatype Found = Found(key: string, value: string)

  datatype Phase = Start | KeyOrEnd | Key | Colon | ValueStart | ValString | ValNested | ValScalar | AfterValue | Done | Dead

  /** How json.Unmarshal decodes a quoted key; none when it does not. */
  type Decoder = string -> Option<string>

  datatype Scan = Scan(phase: Phase, key: string, value: string, esc: bool, inStr: bool, depth: int, keyRaw: string)

  const Fresh := Scan(Start, "", "", false, false, 0, "")

  /** The scanner after a byte, and the member it completed. */
  datatype Step = Step(scan: Scan, found: Option<Found>)

  function Complete(s: Scan, d: Decoder): Step {
    match d(s.keyRaw)
    case None => Step(s.(phase := Dead), None)
    case Some(key) => Step(s.(phase := AfterValue), Some(Found(key, s.value)))
  }

  function Quiet(s: Scan): Step {
    Step(s, None)
  }

  function StepStart(s: Scan, c: char): Scan {
    if IsSpace(c) then s else if c == '{' then s.(phase := KeyOrEnd) else s.(phase := Dead)
  }

  function StepKeyOrEnd(s: Scan, c: char): Scan {
    if IsSpace(c) || c == ',' then s
    else if c == '"' then s.(key := [c], esc := false, phase := Key)
    else if c == '}' then s.(phase := Done)
    else s.(phase := Dead)
  }

  function StepKey(s: Scan, c: char): Scan {
    var t := s.(key := s.key + [c]);
    if s.esc then t.(esc := false)
    else if c == '\\' then t.(esc := true)
    else if c == '"' then t.(keyRaw := t.key, phase := Colon)
    else t
  }

  function StepColon(s: Scan, c: char): Scan {
    if IsSpace(c) then s else if c == ':' then s.(phase := ValueStart) else s.(phase := Dead)
  }

  function StepValueStart(s: Scan, c: char): Scan {
    if IsSpace(c) then s
    else
      var t := s.(value := [c], esc := false);
      if c == '"' then t.(phase := ValString)
      else if c == '{' || c == '[' then t.(depth := 1, inStr := false, phase := ValNested)
      else t.(phase := ValScalar)
  }

  function StepString(s: Scan, c: char, d: Decoder): Step {
    var t := s.(value := s.value + [c]);
    if s.esc then Quiet(t.(esc := false))
    else if c == '\\' then Quiet(t.(esc := true))
    else if c == '"' then Complete(t, d)
    else Quiet(t)
  }

  function StepNested(s: Scan, c: char, d: Decoder): Step {
    var t := s.(value := s.value + [c]);
    if s.esc then Quiet(t.(esc := false))
    else if s.inStr && c == '\\' then Quiet(t.(esc := true))
    else if c == '"' then Quiet(t.(inStr := !s.inStr))
    else if s.inStr then Quiet(t)
    else if c == '{' || c == '[' then Quiet(t.(depth := s.depth + 1))
    else if c == '}' || c == ']' then
      if s.depth - 1 == 0 then Complete(t.(depth := 0), d) else Quiet(t.(depth := s.depth - 1))
    else Quiet(t)
  }

  function StepAfter(s: Scan, c: char): Scan {
    if IsSpace(c) then s
    else if c == ',' then s.(phase := KeyOrEnd)
    else if c == '}' then s.(phase := Done)
    else s.(phase := Dead)
  }

  /** A scalar has no closing byte of its own: the byte that ends it is also a byte after the value. */
  function StepScalar(s: Scan, c: char, d: Decoder): Step {
    if c == ',' || c == '}' || IsSpace(c) then
      var m := Complete(s, d);
      if m.scan.phase.AfterValue? then Step(StepAfter(m.scan, c), m.found) else m
    else Quiet(s.(value := s.value + [c]))
  }

  function Next(s: Scan, c: char, d: Decoder): Step {
    match s.phase
    case Start => Quiet(StepStart(s, c))
    case KeyOrEnd => Quiet(StepKeyOrEnd(s, c))
    case Key => Quiet(StepKey(s, c))
    case Colon => Quiet(StepColon(s, c))
    case ValueStart => Quiet(StepValueStart(s, c))
    case ValString => StepString(s, c, d)
    case ValNested => StepNested(s, c, d)
    case ValScalar => StepScalar(s, c, d)
    case AfterValue => Quiet(StepAfter(s, c))
    case Done => Quiet(s)
    case Dead => Quiet(s)
  }

  function Feed(s: Scan, t: string, d: Decoder): Scan {
    if t == "" then s else Next(Feed(s, t[..|t| - 1], d), t[|t| - 1], d).scan
  }

  /** The members a text completes, in order. */
  function Emitted(s: Scan, t: string, d: Decoder): seq<Found> {
    if t == "" then []
    else
      var m := Next(Feed(s, t[..|t| - 1], d), t[|t| - 1], d).found;
      Emitted(s, t[..|t| - 1], d) + if m.Some? then [m.value] else []
  }

  class ArgScanner {
    const decode: Decoder
    var phase: Phase
    var key: string
    var value: string
    var esc: bool
    var inStr: bool
    var depth: int
    var keyRaw: string

    function Now(): Scan
      reads this
    {
      Scan(phase, key, value, esc, inStr, depth, keyRaw)
    }

    constructor (decode: Decoder)
      ensures Now() == Fresh && this.decode == decode
    {
      this.decode := decode;
      phase, key, value, esc, inStr, depth, keyRaw := Start, "", "", false, false, 0, "";
    }

    /** Takes a piece of the text; what comes out is what Emitted says of it. */
    method FeedDelta(delta: string) returns (out: seq<Found>)
      modifies this
      ensures Now() == Feed(old(Now()), delta, decode)
      ensures out == Emitted(old(Now()), delta, decode)
      ensures old(HasEnded()) ==> out == [] && Now() == old(Now())
    {
      hide Next;
      if HasEnded() {
        EndedStays(Now(), delta, decode);
      }
      out := [];
      for i := 0 to |delta|
        invariant Now() == Feed(old(Now()), delta[..i], decode)
        invariant out == Emitted(old(Now()), delta[..i], decode)
      {
        assert delta[..i + 1][..i] == delta[..i];
        var m := StepByte(delta[i]);
        if m.Some? {
          out := out + [m.value];
        }
      }
      assert delta[..|delta|] == delta;
    }

    /** The phases that no byte leaves. */
    predicate HasEnded()
      reads this
    {
      phase.Done? || phase.Dead?
    }

    method StepByte(c: char) returns (m: Option<Found>)
      modifies this
      ensures Now() == Next(old(Now()), c, decode).scan && m == Next(old(Now()), c, decode).found
    {
      m := None;
      match phase {
        case Start =>
          if IsSpace(c) {
          } else if c == '{' {
            phase := KeyOrEnd;
          } else {
            phase := Dead;
          }
        case KeyOrEnd =>
          if IsSpace(c) || c == ',' {
          } else if c == '"' {
            key := [c];
            esc := false;
            phase := Key;
          } else if c == '}' {
            phase := Done;
          } else {
            phase := Dead;
          }
        case Key =>
          key := key + [c];
          if esc {
            esc := false;
          } else if c == '\\' {
            esc := true;
          } else if c == '"' {
            keyRaw := key;
            phase := Colon;
          }
        case Colon =>
          if IsSpace(c) {
          } else if c == ':' {
            phase := ValueStart;
          } else {
            phase := Dead;
          }
        case ValueStart =>
          if IsSpace(c) {
            return None;
          }
          value := [c];
          esc := false;
          if c == '"' {
            phase := ValString;
          } else if c == '{' || c == '[' {
            depth, inStr := 1, false;
            phase := ValNested;
          } else {
            phase := ValScalar;
          }
        case ValString =>
          value := value + [c];
          if esc {
            esc := false;
          } else if c == '\\' {
            esc := true;
          } else if c == '"' {
            m := CompleteMember();
          }
        case ValNested =>
          value := value + [c];
          if esc {
            esc := false;
          } else if inStr && c == '\\' {
            esc := true;
          } else if c == '"' {
            inStr := !inStr;
          } else if inStr {
          } else if c == '{' || c == '[' {
            depth := depth + 1;
          } else if c == '}' || c == ']' {
            depth := depth - 1;
            if depth == 0 {
              m := CompleteMember();
            }
          }
        case ValScalar =>
          if c == ',' || c == '}' || IsSpace(c) {
            m := CompleteMember();
            if phase.AfterValue? {
              ReadDelimiter(c);
            }
            return m;
          }
          value := value + [c];
        case AfterValue =>
          ReadDelimiter(c);
        case Done =>
        case Dead =>
      }
    }

    method ReadDelimiter(c: char)
      requires phase.AfterValue?
      modifies this
      ensures Now() == StepAfter(old(Now()), c)
    {
      if IsSpace(c) {
      } else if c == ',' {
        phase := KeyOrEnd;
      } else if c == '}' {
        phase := Done;
      } else {
        phase := Dead;
      }
    }

    /** The value is whole: out comes a Found, or the phase is Dead because the key did not decode. */
    method CompleteMember() returns (m: Option<Found>)
      modifies this
      ensures Now() == Complete(old(Now()), decode).scan && m == Complete(old(Now()), decode).found
    {
      phase := AfterValue;
      var k := decode(keyRaw);
      if k.None? {
        phase := Dead;
        return None;
      }
      return Some(Found(k.value, value));
    }
  }

  /** Once the object is done, or cannot be one, nothing changes and nothing comes out. */
  lemma {:induction false} EndedStays(s: Scan, t: string, d: Decoder)
    requires s.phase.Done? || s.phase.Dead?
    ensures Feed(s, t, d) == s && Emitted(s, t, d) == []
  {
    if t != "" {
      EndedStays(s, t[..|t| - 1], d);
    }
  }

  // --- any fragmentation

  lemma FeedMore(s: Scan, t: string, c: char, d: Decoder)
    ensures Feed(s, t + [c], d) == Next(Feed(s, t, d), c, d).scan
    ensures Emitted(s, t + [c], d) == Emitted(s, t, d) + FoundAt(Feed(s, t, d), c, d)
  {
    hide Next;
    assert (t + [c])[..|t|] == t;
  }

  /** The member that this byte completes, if it does. */
  function FoundAt(s: Scan, c: char, d: Decoder): seq<Found> {
    match Next(s, c, d).found case Some(m) => [m] case None => []
  }

  lemma Associates(a: seq<Found>, b: seq<Found>, c: seq<Found>)
    ensures (a + b) + c == a + (b + c)
  {
  }

  lemma {:induction false} FeedConcat(s: Scan, a: string, b: string, d: Decoder)
    ensures Feed(s, a + b, d) == Feed(Feed(s, a, d), b, d)
    ensures Emitted(s, a + b, d) == Emitted(s, a, d) + Emitted(Feed(s, a, d), b, d)
  {
    if b == "" {
      assert a + b == a;
    } else {
      hide *;
      var init, c := b[..|b| - 1], b[|b| - 1];
      FeedConcat(s, a, init, d);
      FeedMore(s, a + init, c, d);
      FeedMore(Feed(s, a, d), init, c, d);
      assert init + [c] == b && a + init + [c] == a + b;
      var f := Feed(s, a, d);
      Associates(Emitted(s, a, d), Emitted(f, init, d), FoundAt(Feed(f, init, d), c, d));
    }
  }

  function Joined(pieces: seq<string>): string {
    if pieces == [] then "" else Joined(pieces[..|pieces| - 1]) + pieces[|pieces| - 1]
  }

  /** Feeding pieces one after the other. */
  function FeedAll(s: Scan, pieces: seq<string>, d: Decoder): (Scan, seq<Found>) {
    if pieces == [] then (s, [])
    else
      var before := FeedAll(s, pieces[..|pieces| - 1], d);
      var last := pieces[|pieces| - 1];
      (Feed(before.0, last, d), before.1 + Emitted(before.0, last, d))
  }

  /** However the text is cut up, the scanner ends in the same state and emits the same members. */
  lemma {:induction false} AnyFragmentation(s: Scan, pieces: seq<string>, d: Decoder)
    ensures FeedAll(s, pieces, d) == (Feed(s, Joined(pieces), d), Emitted(s, Joined(pieces), d))
  {
    if pieces != [] {
      hide Feed, Emitted;
      AnyFragmentation(s, pieces[..|pieces| - 1], d);
      FeedConcat(s, Joined(pieces[..|pieces| - 1]), pieces[|pieces| - 1], d);
    } else {
      assert Joined([]) == "";
    }
  }

  // --- inside a value

  lemma FeedOne(s: Scan, c: char, d: Decoder)
    ensures Feed(s, [c], d) == Next(s, c, d).scan
    ensures Emitted(s, [c], d) == if Next(s, c, d).found.Some? then [Next(s, c, d).found.value] else []
  {
    hide Next;
    assert [c][..0] == "";
    assert Feed(s, "", d) == s && Emitted(s, "", d) == [];
  }

  lemma FeedNone(s: Scan, d: Decoder)
    ensures Feed(s, "", d) == s && Emitted(s, "", d) == []
  {
  }

  /** From s, t leads to u without completing a member. */
  ghost predicate Leads(s: Scan, t: string, u: Scan, d: Decoder) {
    Feed(s, t, d) == u && Emitted(s, t, d) == []
  }

  lemma LeadsOn(s: Scan, a: string, u: Scan, b: string, w: Scan, d: Decoder)
    requires Leads(s, a, u, d) && Leads(u, b, w, d)
    ensures Leads(s, a + b, w, d)
  {
    hide Feed, Emitted;
    FeedConcat(s, a, b, d);
  }

  lemma LeadsOne(s: Scan, c: char, d: Decoder)
    requires Next(s, c, d).found.None?
    ensures Leads(s, [c], Next(s, c, d).scan, d)
  {
    FeedOne(s, c, d);
  }

  /** The text that is being collected, and the scanner with more of it. */
  function Taking(s: Scan, t: string): Scan {
    if s.phase.Key? then s.(key := s.key + t) else s.(value := s.value + t)
  }

  /** In a string: of a key, of a value, or of something inside a value. */
  predicate InString(s: Scan) {
    !s.esc && (s.phase.Key? || s.phase.ValString? || (s.phase.ValNested? && s.inStr))
  }

  lemma TakingMore(s: Scan, a: string, b: string)
    ensures Taking(Taking(s, a), b) == Taking(s, a + b)
    ensures Taking(s, "") == s
  {
    assert s.key + a + b == s.key + (a + b) && s.value + a + b == s.value + (a + b);
    assert s.key + "" == s.key && s.value + "" == s.value;
  }

  lemma StringChar(s: Scan, c: char, d: Decoder)
    requires InString(s) && c != '"' && c != '\\'
    ensures Leads(s, [c], Taking(s, [c]), d)
  {
    LeadsOne(s, c, d);
  }

  lemma StringEscape(s: Scan, c: char, d: Decoder)
    requires InString(s)
    ensures Leads(s, ['\\', c], Taking(s, ['\\', c]), d)
  {
    var u := Taking(s, ['\\']).(esc := true);
    LeadsOne(s, '\\', d);
    LeadsOne(u, c, d);
    LeadsOn(s, ['\\'], u, [c], Taking(u, [c]).(esc := false), d);
    assert ['\\'] + [c] == ['\\', c];
    TakingMore(s, ['\\'], [c]);
  }

  lemma {:induction false} StringChars(s: Scan, t: string, d: Decoder)
    requires InString(s) && forall i :: 0 <= i < |t| ==> t[i] != '"' && t[i] != '\\'
    ensures Leads(s, t, Taking(s, t), d)
  {
    if t == "" {
      TakingMore(s, "", "");
      FeedNone(s, d);
    } else {
      hide Feed, Emitted, Leads;
      var init, c := t[..|t| - 1], t[|t| - 1];
      StringChars(s, init, d);
      StringChar(Taking(s, init), c, d);
      LeadsOn(s, init, Taking(s, init), [c], Taking(Taking(s, init), [c]), d);
      TakingMore(s, init, [c]);
      assert init + [c] == t;
    }
  }

  lemma StringUnit(s: Scan, u: Unit, d: Decoder)
    requires InString(s) && ValidUnit(u)
    ensures Leads(s, UnitText(u), Taking(s, UnitText(u)), d)
  {
    hide Feed, Emitted, Leads;
    match u
    case Raw(c) => StringChar(s, c, d);
    case Escape(c) => StringEscape(s, c, d);
    case Code(a, b, c, e) =>
      var front, back := ['\\', 'u'], [a, b, c, e];
      StringEscape(s, 'u', d);
      StringChars(Taking(s, front), back, d);
      LeadsOn(s, front, Taking(s, front), back, Taking(Taking(s, front), back), d);
      TakingMore(s, front, back);
      assert front + back == UnitText(u);
  }

  lemma {:induction false} StringUnits(s: Scan, us: seq<Unit>, d: Decoder)
    requires InString(s) && ValidUnits(us)
    ensures Leads(s, UnitsText(us), Taking(s, UnitsText(us)), d)
  {
    if us == [] {
      TakingMore(s, "", "");
      FeedNone(s, d);
    } else {
      hide Feed, Emitted, Leads, ValidUnit, UnitText;
      var init, u := us[..|us| - 1], us[|us| - 1];
      StringUnits(s, init, d);
      StringUnit(Taking(s, UnitsText(init)), u, d);
      LeadsOn(s, UnitsText(init), Taking(s, UnitsText(init)), UnitText(u), Taking(Taking(s, UnitsText(init)), UnitText(u)), d);
      TakingMore(s, UnitsText(init), UnitText(u));
    }
  }

  /** In a nested value, between tokens. */
  predicate Within(s: Scan) {
    s.phase.ValNested? && !s.esc && !s.inStr && s.depth >= 1
  }

  /** Wherever it stands inside a nested value, t is only collected. */
  ghost predicate Inside(t: string, d: Decoder) {
    forall s :: Within(s) ==> Leads(s, t, Taking(s, t), d)
  }

  lemma InsideNone(d: Decoder)
    ensures Inside("", d)
  {
    forall s | Within(s) ensures Leads(s, "", Taking(s, ""), d) {
      TakingMore(s, "", "");
      FeedNone(s, d);
    }
  }

  lemma InsideConcat(a: string, b: string, d: Decoder)
    requires Inside(a, d) && Inside(b, d)
    ensures Inside(a + b, d)
  {
    hide Leads;
    forall s | Within(s) ensures Leads(s, a + b, Taking(s, a + b), d) {
      LeadsOn(s, a, Taking(s, a), b, Taking(Taking(s, a), b), d);
      TakingMore(s, a, b);
    }
  }

  predicate Plain(c: char) {
    c != '"' && c != '{' && c != '}' && c != '[' && c != ']'
  }

  lemma InsideChar(c: char, d: Decoder)
    requires Plain(c)
    ensures Inside([c], d)
  {
    forall s | Within(s) ensures Leads(s, [c], Taking(s, [c]), d) {
      LeadsOne(s, c, d);
    }
  }

  lemma {:induction false} InsidePlain(t: string, d: Decoder)
    requires forall i :: 0 <= i < |t| ==> Plain(t[i])
    ensures Inside(t, d)
  {
    hide Inside;
    if t == "" {
      InsideNone(d);
    } else {
      InsidePlain(t[..|t| - 1], d);
      InsideChar(t[|t| - 1], d);
      InsideConcat(t[..|t| - 1], [t[|t| - 1]], d);
      assert t[..|t| - 1] + [t[|t| - 1]] == t;
    }
  }

  lemma InsideQuoted(us: seq<Unit>, d: Decoder)
    requires ValidUnits(us)
    ensures Inside(Quoted(us), d)
  {
    forall s | Within(s) ensures Leads(s, Quoted(us), Taking(s, Quoted(us)), d) {
      QuotedWithin(s, us, d);
    }
  }

  lemma QuotedWithin(s: Scan, us: seq<Unit>, d: Decoder)
    requires Within(s) && ValidUnits(us)
    ensures Leads(s, Quoted(us), Taking(s, Quoted(us)), d)
  {
    hide Feed, Emitted, Leads, ValidUnits, UnitsText;
    var a := Taking(s, ['"']).(inStr := true);
    LeadsOne(s, '"', d);
    StringUnits(a, us, d);
    var b := Taking(a, UnitsText(us));
    LeadsOne(b, '"', d);
    var c := Taking(b, ['"']).(inStr := false);
    LeadsOn(s, ['"'], a, UnitsText(us), b, d);
    LeadsOn(s, ['"'] + UnitsText(us), b, ['"'], c, d);
    assert c.value == Taking(s, Quoted(us)).value;
  }

  lemma InsideBrackets(open: char, t: string, close: char, d: Decoder)
    requires open in {'{', '['} && close in {'}', ']'} && Inside(t, d)
    ensures Inside([open] + t + [close], d)
  {
    forall s | Within(s) ensures Leads(s, [open] + t + [close], Taking(s, [open] + t + [close]), d) {
      BracketsWithin(s, open, t, close, d);
    }
  }

  lemma BracketsWithin(s: Scan, open: char, t: string, close: char, d: Decoder)
    requires Within(s) && open in {'{', '['} && close in {'}', ']'} && Inside(t, d)
    ensures Leads(s, [open] + t + [close], Taking(s, [open] + t + [close]), d)
  {
    hide Feed, Emitted, Leads;
    var a := Taking(s, [open]).(depth := s.depth + 1);
    LeadsOne(s, open, d);
    assert Leads(a, t, Taking(a, t), d);
    var b := Taking(a, t);
    LeadsOne(b, close, d);
    var c := Taking(b, [close]).(depth := s.depth);
    LeadsOn(s, [open], a, t, b, d);
    LeadsOn(s, [open] + t, b, [close], c, d);
    assert c.value == Taking(s, [open] + t + [close]).value;
  }

  lemma NumberPlain(n: Number)
    requires ValidNumber(n)
    ensures NumberText(n) != "" && forall i :: 0 <= i < |NumberText(n)| ==> Solid(NumberText(n)[i])
  {
  }

  /** No white space, no delimiter, no quote. */
  predicate Solid(c: char) {
    Plain(c) && !IsSpace(c) && c != ',' && c != ':'
  }

  lemma ScalarSolid(v: Value)
    requires Valid(v) && (v.Num? || v.Word?)
    ensures Print(v) != "" && forall i :: 0 <= i < |Print(v)| ==> Solid(Print(v)[i])
  {
    if v.Num? {
      NumberPlain(v.number);
    }
  }

  /** Any well-formed value is only collected, however deep it goes. */
  lemma {:induction false} InsideValue(v: Value, d: Decoder)
    requires Valid(v)
    ensures Inside(Print(v), d)
    decreases v, 0
  {
    hide Inside;
    match v
    case Text(us) => InsideQuoted(us, d);
    case Num(_) =>
      ScalarSolid(v);
      InsidePlain(Print(v), d);
    case Word(_) =>
      ScalarSolid(v);
      InsidePlain(Print(v), d);
    case Array(pad, items) =>
      InsideBody(v, d);
      InsideBrackets('[', if items == [] then pad else PrintItems(v, |items|), ']', d);
    case Object(pad, members) =>
      InsideBody(v, d);
      InsideBrackets('{', if members == [] then pad else PrintMembers(v, |members|), '}', d);
  }

  lemma InsideBody(v: Value, d: Decoder)
    requires Valid(v) && (v.Array? || v.Object?)
    ensures v.Array? ==> Inside(if v.items == [] then v.pad else PrintItems(v, |v.items|), d)
    ensures v.Object? ==> Inside(if v.members == [] then v.pad else PrintMembers(v, |v.members|), d)
    decreases v, 0, 0
  {
    hide Inside;
    InsidePlain(v.pad, d);
    if v.Array? {
      InsideItems(v, |v.items|, d);
    } else {
      InsideMembers(v, |v.members|, d);
    }
  }

  lemma {:induction false} InsideItems(v: Value, n: nat, d: Decoder)
    requires Valid(v) && v.Array? && n <= |v.items|
    ensures Inside(PrintItems(v, n), d)
    decreases v, 0, 0, n
  {
    hide Inside;
    if n == 0 {
      InsideNone(d);
    } else {
      var m := v.items[n - 1];
      InsideItems(v, n - 1, d);
      InsidePlain(Comma(n - 1), d);
      InsidePlain(m.before, d);
      InsideValue(m.value, d);
      InsidePlain(m.after, d);
      InsideConcat(m.before, Print(m.value), d);
      InsideConcat(m.before + Print(m.value), m.after, d);
      InsideConcat(PrintItems(v, n - 1), Comma(n - 1), d);
      InsideConcat(PrintItems(v, n - 1) + Comma(n - 1), PrintItem(m), d);
    }
  }

  lemma {:induction false} InsideMembers(v: Value, n: nat, d: Decoder)
    requires Valid(v) && v.Object? && n <= |v.members|
    ensures Inside(PrintMembers(v, n), d)
    decreases v, 0, 0, n
  {
    hide Inside;
    if n == 0 {
      InsideNone(d);
    } else {
      InsideMembers(v, n - 1, d);
      InsidePlain(Comma(n - 1), d);
      InsideMember(v, n - 1, d);
      InsideConcat(PrintMembers(v, n - 1), Comma(n - 1), d);
      InsideConcat(PrintMembers(v, n - 1) + Comma(n - 1), PrintMember(v.members[n - 1]), d);
    }
  }

  lemma InsideMember(v: Value, i: nat, d: Decoder)
    requires Valid(v) && v.Object? && i < |v.members|
    ensures Inside(PrintMember(v.members[i]), d)
    decreases v, 0, 0, i
  {
    hide Inside;
    var m := v.members[i];
    assert ValidMember(m);
    InsidePlain(m.before, d);
    InsideQuoted(m.key, d);
    InsidePlain(m.mid, d);
    InsideChar(':', d);
    InsidePlain(m.colon, d);
    InsideValue(m.value, d);
    InsidePlain(m.after, d);
    InsideConcat(m.before, Quoted(m.key), d);
    InsideConcat(m.before + Quoted(m.key), m.mid, d);
    InsideConcat(m.before + Quoted(m.key) + m.mid, [':'], d);
    InsideConcat(m.before + Quoted(m.key) + m.mid + [':'], m.colon, d);
    InsideConcat(m.before + Quoted(m.key) + m.mid + [':'] + m.colon, Print(m.value), d);
    InsideConcat(m.before + Quoted(m.key) + m.mid + [':'] + m.colon + Print(m.value), m.after, d);
  }

  // --- one member

  /** White space before, after and between tokens of the object changes nothing. */
  predicate Skips(s: Scan) {
    s.phase.Start? || s.phase.KeyOrEnd? || s.phase.Colon? || s.phase.ValueStart? || s.phase.AfterValue? || s.phase.Done?
  }

  lemma {:induction false} SkipSpace(s: Scan, t: string, d: Decoder)
    requires Skips(s) && Blank(t)
    ensures Leads(s, t, s, d)
  {
    if t == "" {
      FeedNone(s, d);
    } else {
      var init, c := t[..|t| - 1], t[|t| - 1];
      SkipSpace(s, init, d);
      LeadsOne(s, c, d);
      LeadsOn(s, init, s, [c], s, d);
      assert init + [c] == t;
    }
  }

  /** A quoted key is read up to its closing quote, and kept as it is written. */
  lemma ReadKey(s: Scan, us: seq<Unit>, d: Decoder)
    requires s.phase.KeyOrEnd? && ValidUnits(us)
    ensures Leads(s, Quoted(us), s.(key := Quoted(us), keyRaw := Quoted(us), esc := false, phase := Colon), d)
  {
    hide Feed, Emitted, Leads, ValidUnits, UnitsText;
    var a := s.(key := ['"'], esc := false, phase := Key);
    LeadsOne(s, '"', d);
    StringUnits(a, us, d);
    var b := Taking(a, UnitsText(us));
    LeadsOne(b, '"', d);
    var c := b.(key := b.key + ['"'], keyRaw := b.key + ['"'], phase := Colon);
    LeadsOn(s, ['"'], a, UnitsText(us), b, d);
    LeadsOn(s, ['"'] + UnitsText(us), b, ['"'], c, d);
    assert b.key + ['"'] == Quoted(us);
  }

  /** From s the value text leads to its own end: the member is out, or waits as a scalar for a delimiter. */
  ghost predicate Reads(s: Scan, text: string, d: Decoder) {
    var u := Feed(s, text, d);
    && u.keyRaw == s.keyRaw
    && (if u.phase.ValScalar? then u.value == text && Emitted(s, text, d) == []
        else u.phase.AfterValue? && d(s.keyRaw).Some? && Emitted(s, text, d) == [Found(d(s.keyRaw).value, text)])
  }

  /** What leads up to the last byte of a value, and that byte completes it. */
  lemma EndsValue(s: Scan, t: string, u: Scan, c: char, d: Decoder)
    requires Leads(s, t, u, d) && u.keyRaw == s.keyRaw && d(s.keyRaw).Some?
    requires Next(u, c, d) == Complete(Next(u, c, d).scan.(phase := u.phase), d)
    requires Next(u, c, d).scan.value == t + [c] && Next(u, c, d).scan.keyRaw == s.keyRaw
    ensures Reads(s, t + [c], d)
  {
    hide Feed, Emitted, Next;
    FeedConcat(s, t, [c], d);
    FeedOne(u, c, d);
  }

  lemma ReadText(s: Scan, us: seq<Unit>, d: Decoder)
    requires s.phase.ValueStart? && ValidUnits(us) && d(s.keyRaw).Some?
    ensures Reads(s, Quoted(us), d)
  {
    hide Feed, Emitted, Leads, ValidUnits, UnitsText, Reads;
    var a := s.(value := ['"'], esc := false, phase := ValString);
    LeadsOne(s, '"', d);
    StringUnits(a, us, d);
    var b := Taking(a, UnitsText(us));
    LeadsOn(s, ['"'], a, UnitsText(us), b, d);
    EndsValue(s, ['"'] + UnitsText(us), b, '"', d);
  }

  lemma ReadNested(s: Scan, open: char, t: string, close: char, d: Decoder)
    requires s.phase.ValueStart? && open in {'{', '['} && close in {'}', ']'} && Inside(t, d) && d(s.keyRaw).Some?
    ensures Reads(s, [open] + t + [close], d)
  {
    hide Feed, Emitted, Leads, Reads;
    var a := s.(value := [open], esc := false, depth := 1, inStr := false, phase := ValNested);
    LeadsOne(s, open, d);
    assert Leads(a, t, Taking(a, t), d);
    var b := Taking(a, t);
    LeadsOn(s, [open], a, t, b, d);
    EndsValue(s, [open] + t, b, close, d);
  }

  lemma {:induction false} ScalarChars(s: Scan, t: string, d: Decoder)
    requires s.phase.ValScalar? && forall i :: 0 <= i < |t| ==> Solid(t[i])
    ensures Leads(s, t, Taking(s, t), d)
  {
    if t == "" {
      TakingMore(s, "", "");
      FeedNone(s, d);
    } else {
      hide Feed, Emitted, Leads;
      var init, c := t[..|t| - 1], t[|t| - 1];
      ScalarChars(s, init, d);
      LeadsOne(Taking(s, init), c, d);
      LeadsOn(s, init, Taking(s, init), [c], Taking(Taking(s, init), [c]), d);
      TakingMore(s, init, [c]);
      assert init + [c] == t;
    }
  }

  lemma ReadScalar(s: Scan, t: string, d: Decoder)
    requires s.phase.ValueStart? && t != "" && forall i :: 0 <= i < |t| ==> Solid(t[i])
    ensures Reads(s, t, d)
  {
    hide Feed, Emitted;
    var a := s.(value := [t[0]], esc := false, phase := ValScalar);
    LeadsOne(s, t[0], d);
    ScalarChars(a, t[1..], d);
    LeadsOn(s, [t[0]], a, t[1..], Taking(a, t[1..]), d);
    assert [t[0]] + t[1..] == t;
  }

  lemma ReadValue(s: Scan, v: Value, d: Decoder)
    requires s.phase.ValueStart? && Valid(v) && d(s.keyRaw).Some?
    ensures Reads(s, Print(v), d)
  {
    hide Reads, Inside;
    match v
    case Text(us) => ReadText(s, us, d);
    case Num(_) =>
      ScalarSolid(v);
      ReadScalar(s, Print(v), d);
    case Word(_) =>
      ScalarSolid(v);
      ReadScalar(s, Print(v), d);
    case Array(pad, items) =>
      InsideBody(v, d);
      ReadNested(s, '[', if items == [] then pad else PrintItems(v, |items|), ']', d);
    case Object(pad, members) =>
      InsideBody(v, d);
      ReadNested(s, '{', if members == [] then pad else PrintMembers(v, |members|), '}', d);
  }

  /** The delimiter after a value, with white space before it, moves on; a scalar comes out at the first byte of it. */
  lemma Delimited(u: Scan, after: string, c: char, text: string, d: Decoder)
    requires Blank(after) && (c == ',' || c == '}') && d(u.keyRaw).Some?
    requires u.phase.AfterValue? || (u.phase.ValScalar? && u.value == text)
    ensures Feed(u, after + [c], d).phase == (if c == ',' then KeyOrEnd else Done)
    ensures Emitted(u, after + [c], d) == if u.phase.AfterValue? then [] else [Found(d(u.keyRaw).value, text)]
  {
    hide Feed, Emitted;
    if u.phase.AfterValue? {
      AfterSpace(u, after, c, d);
    } else if after == "" {
      FeedOne(u, c, d);
      assert after + [c] == [c];
      assert !IsSpace(c);
      assert Complete(u, d).scan.phase.AfterValue?;
    } else {
      var e, rest := after[0], after[1..];
      var w := Next(u, e, d).scan;
      FeedOne(u, e, d);
      FeedConcat(u, [e], rest + [c], d);
      assert [e] + (rest + [c]) == after + [c];
      AfterSpace(w, rest, c, d);
    }
  }

  lemma AfterSpace(u: Scan, after: string, c: char, d: Decoder)
    requires Blank(after) && (c == ',' || c == '}') && u.phase.AfterValue?
    ensures Feed(u, after + [c], d).phase == (if c == ',' then KeyOrEnd else Done)
    ensures Emitted(u, after + [c], d) == []
  {
    hide Feed, Emitted;
    SkipSpace(u, after, d);
    FeedConcat(u, after, [c], d);
    FeedOne(u, c, d);
    assert Next(u, c, d).scan == StepAfter(u, c);
    assert !IsSpace(c);
  }

  /** A decoder that decodes every well-formed string. */
  ghost predicate Total(d: Decoder) {
    forall us :: ValidUnits(us) ==> d(Quoted(us)).Some?
  }

  function FoundIn(m: Member, d: Decoder): Found
    requires d(Quoted(m.key)).Some?
  {
    Found(d(Quoted(m.key)).value, Print(m.value))
  }

  /** Up to the value. */
  lemma ToValue(s: Scan, m: Member, d: Decoder)
    requires s.phase.KeyOrEnd? && ValidMember(m)
    ensures Leads(s, m.before + Quoted(m.key) + m.mid + [':'] + m.colon,
                  s.(key := Quoted(m.key), keyRaw := Quoted(m.key), esc := false, phase := ValueStart), d)
  {
    hide Feed, Emitted, Leads, Quoted;
    var a := s.(key := Quoted(m.key), keyRaw := Quoted(m.key), esc := false, phase := Colon);
    var b := a.(phase := ValueStart);
    SkipSpace(s, m.before, d);
    ReadKey(s, m.key, d);
    LeadsOn(s, m.before, s, Quoted(m.key), a, d);
    SkipSpace(a, m.mid, d);
    LeadsOn(s, m.before + Quoted(m.key), a, m.mid, a, d);
    LeadsOne(a, ':', d);
    LeadsOn(s, m.before + Quoted(m.key) + m.mid, a, [':'], b, d);
    SkipSpace(b, m.colon, d);
    LeadsOn(s, m.before + Quoted(m.key) + m.mid + [':'], b, m.colon, b, d);
  }

  /** A member and the delimiter after it: the member comes out, once, its value as it is written. */
  lemma OneMember(s: Scan, m: Member, c: char, d: Decoder)
    requires s.phase.KeyOrEnd? && ValidMember(m) && (c == ',' || c == '}') && d(Quoted(m.key)).Some?
    ensures Feed(s, PrintMember(m) + [c], d).phase == (if c == ',' then KeyOrEnd else Done)
    ensures Emitted(s, PrintMember(m) + [c], d) == [FoundIn(m, d)]
  {
    hide Feed, Emitted, Quoted, Print, ValidMember;
    var front, text := m.before + Quoted(m.key) + m.mid + [':'] + m.colon, Print(m.value);
    var a := s.(key := Quoted(m.key), keyRaw := Quoted(m.key), esc := false, phase := ValueStart);
    ToValue(s, m, d);
    MemberParts(m);
    ReadValue(a, m.value, d);
    var u := Feed(a, text, d);
    Delimited(u, m.after, c, text, d);
    FeedConcat(a, text, m.after + [c], d);
    FeedConcat(s, front, text + (m.after + [c]), d);
    assert PrintMember(m) + [c] == front + (text + (m.after + [c]));
  }

  lemma MemberParts(m: Member)
    requires ValidMember(m)
    ensures Valid(m.value) && Blank(m.after)
  {
  }

  // --- the whole object

  function AllFound(v: Value, n: nat, d: Decoder): seq<Found>
    requires v.Object? && n <= |v.members| && forall i :: 0 <= i < n ==> d(Quoted(v.members[i].key)).Some?
  {
    if n == 0 then [] else AllFound(v, n - 1, d) + [FoundIn(v.members[n - 1], d)]
  }

  lemma KeysDecode(v: Value, d: Decoder)
    requires v.Object? && Valid(v) && Total(d)
    ensures forall i :: 0 <= i < |v.members| ==> ValidMember(v.members[i]) && d(Quoted(v.members[i].key)).Some?
  {
    forall i | 0 <= i < |v.members| ensures d(Quoted(v.members[i].key)).Some? {
      assert ValidMember(v.members[i]);
    }
  }

  lemma {:induction false} SomeMembers(s: Scan, v: Value, n: nat, c: char, d: Decoder)
    requires s.phase.KeyOrEnd? && v.Object? && Valid(v) && Total(d) && 0 < n <= |v.members| && (c == ',' || c == '}')
    requires forall i :: 0 <= i < |v.members| ==> ValidMember(v.members[i]) && d(Quoted(v.members[i].key)).Some?
    ensures Feed(s, PrintMembers(v, n) + [c], d).phase == (if c == ',' then KeyOrEnd else Done)
    ensures Emitted(s, PrintMembers(v, n) + [c], d) == AllFound(v, n, d)
    decreases n
  {
    hide Feed, Emitted, PrintMember, Quoted, Valid, ValidMember, Total, FoundIn;
    var m := v.members[n - 1];
    if n == 1 {
      OneMember(s, m, c, d);
      assert AllFound(v, 0, d) == [];
      assert PrintMembers(v, 1) + [c] == PrintMember(m) + [c];
    } else {
      SomeMembers(s, v, n - 1, ',', d);
      var front := PrintMembers(v, n - 1) + [','];
      OneMember(Feed(s, front, d), m, c, d);
      FeedConcat(s, front, PrintMember(m) + [c], d);
      assert PrintMembers(v, n) + [c] == front + (PrintMember(m) + [c]);
    }
  }

  /** From the opening brace on. */
  lemma BodyIsRead(open: Scan, v: Value, d: Decoder)
    requires open.phase.KeyOrEnd? && v.Object? && Valid(v) && Total(d)
    requires forall i :: 0 <= i < |v.members| ==> d(Quoted(v.members[i].key)).Some?
    ensures var body := (if v.members == [] then v.pad else PrintMembers(v, |v.members|)) + ['}'];
            Feed(open, body, d).phase == Done && Emitted(open, body, d) == AllFound(v, |v.members|, d)
  {
    hide Feed, Emitted, Total, ValidMember, PrintMembers, Print, Quoted;
    KeysDecode(v, d);
    if v.members == [] {
      SkipSpace(open, v.pad, d);
      FeedConcat(open, v.pad, ['}'], d);
      FeedOne(open, '}', d);
    } else {
      SomeMembers(open, v, |v.members|, '}', d);
    }
  }

  /** A well-formed object, with white space around it: the scanner emits exactly its members, in order, each once, the
      values as they are written, and is done. */
  lemma ObjectIsRead(v: Value, lead: string, trail: string, d: Decoder)
    requires v.Object? && Valid(v) && Total(d) && Blank(lead) && Blank(trail)
    requires forall i :: 0 <= i < |v.members| ==> d(Quoted(v.members[i].key)).Some?
    ensures Feed(Fresh, lead + Print(v) + trail, d).phase == Done
    ensures Emitted(Fresh, lead + Print(v) + trail, d) == AllFound(v, |v.members|, d)
  {
    hide Feed, Emitted, Total, Valid, PrintMembers, Quoted, AllFound;
    var open := Fresh.(phase := KeyOrEnd);
    SkipSpace(Fresh, lead, d);
    LeadsOne(Fresh, '{', d);
    LeadsOn(Fresh, lead, Fresh, ['{'], open, d);
    BodyIsRead(open, v, d);
    var body := (if v.members == [] then v.pad else PrintMembers(v, |v.members|)) + ['}'];
    var done := Feed(open, body, d);
    SkipSpace(done, trail, d);
    FeedConcat(open, body, trail, d);
    FeedConcat(Fresh, lead + ['{'], body + trail, d);
    assert lead + Print(v) + trail == lead + ['{'] + (body + trail);
  }

  /** After any part of such a text, the scanner has emitted the first so many of its members, and nothing else. */
  lemma PrefixIsRead(v: Value, lead: string, trail: string, part: string, d: Decoder)
    requires v.Object? && Valid(v) && Total(d) && Blank(lead) && Blank(trail) && part <= lead + Print(v) + trail
    requires forall i :: 0 <= i < |v.members| ==> d(Quoted(v.members[i].key)).Some?
    ensures Emitted(Fresh, part, d) <= AllFound(v, |v.members|, d)
  {
    hide Feed, Emitted, Total, AllFound;
    var whole := lead + Print(v) + trail;
    ObjectIsRead(v, lead, trail, d);
    FeedConcat(Fresh, part, whole[|part|..], d);
    assert part + whole[|part|..] == whole;
  }

  /** The scanner takes more than section 4 allows: a comma before the first member. */
  lemma ExtraCommaPasses(d: Decoder)
    ensures Feed(Fresh, ['{', ',', '}'], d).phase == Done
  {
    hide Feed, Emitted;
    var a := Fresh.(phase := KeyOrEnd);
    LeadsOne(Fresh, '{', d);
    LeadsOne(a, ',', d);
    LeadsOne(a, '}', d);
    LeadsOn(Fresh, ['{'], a, [','], a, d);
    LeadsOn(Fresh, ['{'] + [','], a, ['}'], a.(phase := Done), d);
    assert ['{'] + [','] + ['}'] == ['{', ',', '}'];
  }

  /** White space is a blank, a tab, a line feed or a carriage return, and nothing else. Each of them may stand in every gap
      of an object, and before and after it. */
  lemma GapsMayBe(c: char, key: seq<Unit>, v: Value, d: Decoder)
    requires c in {' ', '\t', '\n', '\r'} && ValidUnits(key) && Valid(v) && Total(d) && d(Quoted(key)).Some?
    ensures var o := Object([c], [Member([c], key, [c], [c], v, [c])]);
            && Valid(o) && Feed(Fresh, [c] + Print(o) + [c], d).phase == Done
            && Emitted(Fresh, [c] + Print(o) + [c], d) == AllFound(o, 1, d)
            && Print(o) == ['{'] + [c] + Quoted(key) + [c] + [':'] + [c] + Print(v) + [c] + ['}']
  {
    hide Feed, Emitted, Total, AllFound, Quoted, Valid, ValidUnits, Blank, PrintMembers;
    var m := Member([c], key, [c], [c], v, [c]);
    var o := Object([c], [m]);
    OneValid(m, c);
    ObjectIsRead(o, [c], [c], d);
    PrintOne(m, [c]);
    assert [c] + Quoted(key) + [c] + [':'] + [c] + Print(v) + [c] == PrintMember(m);
  }

  lemma OneValid(m: Member, c: char)
    requires c in {' ', '\t', '\n', '\r'} && m.before == m.mid == m.colon == m.after == [c] && ValidUnits(m.key) && Valid(m.value)
    ensures Valid(Object([c], [m])) && Blank([c])
  {
    hide ValidUnits;
  }

  lemma PrintOne(m: Member, pad: string)
    ensures Print(Object(pad, [m])) == ['{'] + PrintMember(m) + ['}']
  {
    hide PrintMember;
    var o := Object(pad, [m]);
    assert PrintMembers(o, 0) == "" && Comma(0) == "";
    assert PrintMembers(o, 1) == PrintMembers(o, 0) + Comma(0) + PrintMember(m);
    assert "" + "" + PrintMember(m) == PrintMember(m);
  }

  /** And no other character is passed over before an object begins. */
  lemma NothingElseIsSpace(c: char, d: Decoder)
    ensures Feed(Fresh, [c], d).phase.Start? <==> c in {' ', '\t', '\n', '\r'}
  {
    FeedOne(Fresh, c, d);
  }
}
