/** The XML escaper (core/xmlwrite.go). What it writes is taken back by expanding references. */
module Escaping {
  import opened Utf8
  import opened Decimals

  /** The characters a document may only hold as references: NUL and the RestrictedChar of section 2.2 of XML 1.1. */
  predicate MustReference(r: int) {
    r == 0 || 0x1 <= r <= 0x8 || 0xB <= r <= 0xC || 0xE <= r <= 0x1F || 0x7F <= r <= 0x84 || 0x86 <= r <= 0x9F
  }

  predicate Quoting(r: int) {
    r == '"' as int || r == '\n' as int || r == '\r' as int || r == '\t' as int
  }

  /** A character reference, by number. */
  function Reference(n: nat): string {
    "&#" + Decimal(n) + ";"
  }

  predicate Changes(u: Unit, inAttr: bool) {
    u.Bad? || u.rune == '&' as int || u.rune == '<' as int || u.rune == '>' as int
    || (inAttr && Quoting(u.rune)) || MustReference(u.rune)
  }

  function EscapeUnit(u: Unit, inAttr: bool): string {
    match u
    case Bad(byte) => if byte >= 0 then Reference(byte) else ""
    case Good(r, _) =>
      if r == '&' as int then "&amp;"
      else if r == '<' as int then "&lt;"
      else if r == '>' as int then "&gt;"
      else if inAttr && r == '"' as int then "&quot;"
      else if r >= 0 && (MustReference(r) || (inAttr && Quoting(r))) then Reference(r)
      else if Scalar(r) then Encode(r)
      else ""
  }

  function EscapeUnits(us: seq<Unit>, inAttr: bool): string {
    if us == [] then "" else EscapeUnit(us[0], inAttr) + EscapeUnits(us[1..], inAttr)
  }

  /** Every unit escaped by itself. */
  function Escaped(s: string, inAttr: bool): string {
    EscapeUnits(Units(s), inAttr)
  }

  predicate NeedsEscape(s: string, inAttr: bool) {
    exists i :: 0 <= i < |Units(s)| && Changes(Units(s)[i], inAttr)
  }

  method Needs(s: string, inAttr: bool) returns (needs: bool)
    ensures needs == NeedsEscape(s, inAttr)
  {
    hide Decode;
    var i := 0;
    ghost var k := 0;
    assert s[0..] == s;
    while i < |s|
      invariant i <= |s| && k <= |Units(s)| && Units(s)[k..] == Units(s[i..])
      invariant forall j :: 0 <= j < k ==> !Changes(Units(s)[j], inAttr)
    {
      var u := Decode(s[i..]);
      assert u == Units(s)[k..][0] == Units(s)[k];
      assert s[i..][SizeOf(u)..] == s[i + SizeOf(u)..];
      assert Units(s)[k + 1..] == Units(s)[k..][1..];
      if Changes(u, inAttr) {
        return true;
      }
      i := i + SizeOf(u);
      k := k + 1;
    }
    assert s[i..] == "" && |Units(s)| == k;
    return false;
  }

  /** The escaper: what it leaves alone comes back as it is, without the slower path. */
  method Escape(s: string, inAttr: bool) returns (out: string)
    ensures out == Escaped(s, inAttr)
  {
    var needs := Needs(s, inAttr);
    if !needs {
      ChangesExactly(s, inAttr);
      return s;
    }
    out := EscapeSlowly(s, inAttr);
  }

  method EscapeSlowly(s: string, inAttr: bool) returns (out: string)
    ensures out == Escaped(s, inAttr)
  {
    hide Decode, EscapeUnit;
    var i := 0;
    out := "";
    assert s[0..] == s;
    while i < |s|
      invariant i <= |s| && Escaped(s, inAttr) == out + Escaped(s[i..], inAttr)
    {
      var u := Decode(s[i..]);
      assert Units(s[i..])[1..] == Units(s[i..][SizeOf(u)..]);
      assert s[i..][SizeOf(u)..] == s[i + SizeOf(u)..];
      out := out + EscapeUnit(u, inAttr);
      i := i + SizeOf(u);
    }
    assert s[i..] == "" && Units("") == [];
  }

  // --- the two paths agree

  lemma EscapeUnitLength(s: string, inAttr: bool)
    requires s != ""
    ensures |EscapeUnit(Decode(s), inAttr)| >= SizeOf(Decode(s))
    ensures Changes(Decode(s), inAttr) ==> |EscapeUnit(Decode(s), inAttr)| > SizeOf(Decode(s))
    ensures !Changes(Decode(s), inAttr) ==> EscapeUnit(Decode(s), inAttr) == s[..SizeOf(Decode(s))]
  {
    hide Decimal;
    var u := Decode(s);
    if u.Good? {
      DecodeIsEncode(s);
      RuneSize(u.rune);
    }
  }

  lemma RuneSize(r: int)
    requires Scalar(r)
    ensures r < 0x800 ==> |Encode(r)| <= 2
    ensures r < 0x80 ==> Encode(r) == [Byte(r)]
  {
  }

  /** The text without its first unit. */
  function Rest(s: string): string
    requires s != ""
  {
    s[SizeOf(Decode(s))..]
  }

  lemma EscapedStep(s: string, inAttr: bool)
    requires s != ""
    ensures Escaped(s, inAttr) == EscapeUnit(Decode(s), inAttr) + Escaped(Rest(s), inAttr)
    ensures s == s[..SizeOf(Decode(s))] + Rest(s) && |Rest(s)| < |s|
    ensures NeedsEscape(s, inAttr) <==> Changes(Decode(s), inAttr) || NeedsEscape(Rest(s), inAttr)
  {
    hide Decode, EscapeUnit, Changes, Units, EscapeUnits, NeedsEscape;
    UnitsFront(s);
    EscapeFront(Units(s), inAttr);
    assert ([Decode(s)] + Units(Rest(s)))[1..] == Units(Rest(s));
    NeedsFront(s, Decode(s), Rest(s), inAttr);
  }

  lemma EscapedNone(inAttr: bool)
    ensures Escaped("", inAttr) == "" && !NeedsEscape("", inAttr)
  {
  }

  lemma {:induction false} EscapedLength(s: string, inAttr: bool)
    ensures |Escaped(s, inAttr)| >= |s|
    ensures NeedsEscape(s, inAttr) ==> |Escaped(s, inAttr)| > |s|
    ensures !NeedsEscape(s, inAttr) ==> Escaped(s, inAttr) == s
    decreases |s|
  {
    hide *;
    if s == "" {
      EscapedNone(inAttr);
    } else {
      EscapedStep(s, inAttr);
      EscapedLength(Rest(s), inAttr);
      EscapeUnitLength(s, inAttr);
    }
  }

  lemma NeedsFront(s: string, u: Unit, rest: string, inAttr: bool)
    requires Units(s) == [u] + Units(rest)
    ensures NeedsEscape(s, inAttr) <==> Changes(u, inAttr) || NeedsEscape(rest, inAttr)
  {
    hide Changes;
    if NeedsEscape(rest, inAttr) {
      var i :| 0 <= i < |Units(rest)| && Changes(Units(rest)[i], inAttr);
      assert Units(s)[i + 1] == Units(rest)[i];
    }
    if Changes(u, inAttr) {
      assert Units(s)[0] == u;
    }
    if NeedsEscape(s, inAttr) {
      var i :| 0 <= i < |Units(s)| && Changes(Units(s)[i], inAttr);
      assert i > 0 ==> Units(s)[i] == Units(rest)[i - 1];
    }
  }

  /** The test finds exactly the texts the escaper would change. */
  lemma ChangesExactly(s: string, inAttr: bool)
    ensures Escaped(s, inAttr) != s <==> NeedsEscape(s, inAttr)
  {
    EscapedLength(s, inAttr);
  }

  // --- piece by piece

  lemma {:induction false} EscapeUnitsConcat(us: seq<Unit>, vs: seq<Unit>, inAttr: bool)
    ensures EscapeUnits(us + vs, inAttr) == EscapeUnits(us, inAttr) + EscapeUnits(vs, inAttr)
  {
    if us == [] {
      assert us + vs == vs;
      assert EscapeUnits(us, inAttr) == "";
      assert "" + EscapeUnits(vs, inAttr) == EscapeUnits(vs, inAttr);
    } else {
      hide EscapeUnit, EscapeUnits;
      EscapeUnitsConcat(us[1..], vs, inAttr);
      Tail(us, vs);
      EscapeFront(us + vs, inAttr);
      EscapeFront(us, inAttr);
      Associates(EscapeUnit(us[0], inAttr), EscapeUnits(us[1..], inAttr), EscapeUnits(vs, inAttr));
    }
  }

  lemma Associates(a: string, b: string, c: string)
    ensures a + b + c == a + (b + c)
  {
  }

  lemma Tail<T>(a: seq<T>, b: seq<T>)
    requires a != []
    ensures (a + b)[1..] == a[1..] + b && (a + b)[0] == a[0] && a + b != []
  {
  }

  lemma EscapeFront(us: seq<Unit>, inAttr: bool)
    requires us != []
    ensures EscapeUnits(us, inAttr) == EscapeUnit(us[0], inAttr) + EscapeUnits(us[1..], inAttr)
  {
  }

  /** Deltas cut between characters escape to the bytes of the whole. */
  lemma EscapedConcat(a: string, b: string, inAttr: bool)
    requires ValidText(a)
    ensures Escaped(a + b, inAttr) == Escaped(a, inAttr) + Escaped(b, inAttr)
  {
    UnitsConcat(a, b);
    EscapeUnitsConcat(Units(a), Units(b), inAttr);
  }

  // --- no markup gets through

  lemma ReferenceClean(n: nat)
    ensures forall c :: c in Reference(n) ==> c == '&' || c == '#' || c == ';' || IsDigit(c)
  {
  }

  lemma RuneClean(r: int)
    requires Scalar(r)
    ensures r < 0x80 ==> Encode(r) == [Byte(r)]
    ensures r >= 0x80 ==> forall c :: c in Encode(r) ==> c as int >= 0x80
  {
  }

  /** Neither '<' nor '>', nor a quote where a quote would end an attribute. */
  predicate NoMarkup(t: string, inAttr: bool) {
    '<' !in t && '>' !in t && (inAttr ==> '"' !in t)
  }

  lemma UnitNoMarkup(u: Unit, inAttr: bool)
    ensures NoMarkup(EscapeUnit(u, inAttr), inAttr)
  {
    hide Decimal, Reference;
    match u
    case Bad(byte) =>
      if byte >= 0 {
        ReferenceClean(byte);
      }
    case Good(r, _) =>
      if r >= 0 {
        ReferenceClean(r);
      }
      if Scalar(r) {
        RuneClean(r);
      }
  }

  lemma {:induction false} UnitsNoMarkup(us: seq<Unit>, inAttr: bool)
    ensures NoMarkup(EscapeUnits(us, inAttr), inAttr)
  {
    if us != [] {
      hide EscapeUnit;
      UnitNoMarkup(us[0], inAttr);
      UnitsNoMarkup(us[1..], inAttr);
    }
  }

  /** Escaped text holds no markup byte at all. */
  lemma EscapedNoMarkup(s: string, inAttr: bool)
    ensures NoMarkup(Escaped(s, inAttr), inAttr)
  {
    UnitsNoMarkup(Units(s), inAttr);
  }

  predicate AllowedUnit(u: Unit, inAttr: bool) {
    u.Good? && !MustReference(u.rune) && (inAttr ==> !Quoting(u.rune))
  }

  predicate AllAllowed(us: seq<Unit>, inAttr: bool) {
    forall i :: 0 <= i < |us| ==> AllowedUnit(us[i], inAttr)
  }

  lemma AsciiAllowed(t: string, inAttr: bool)
    requires Ascii(t) && forall i :: 0 <= i < |t| ==> !MustReference(t[i] as int) && !Quoting(t[i] as int)
    ensures AllAllowed(Units(t), inAttr)
  {
    AsciiUnits(t);
  }

  lemma UnitAllowed(u: Unit, inAttr: bool)
    ensures AllAllowed(Units(EscapeUnit(u, inAttr)), inAttr)
  {
    hide Units, Decimal;
    var t := EscapeUnit(u, inAttr);
    if u.Good? && !Changes(u, inAttr) && Scalar(u.rune) {
      UnitsOfRune(u.rune);
    } else {
      AsciiAllowed(t, inAttr);
    }
  }

  lemma AllowedConcat(a: string, b: string, inAttr: bool)
    requires AllAllowed(Units(a), inAttr) && AllAllowed(Units(b), inAttr)
    ensures AllAllowed(Units(a + b), inAttr)
  {
    hide Units;
    assert AllGood(Units(a));
    UnitsConcat(a, b);
  }

  lemma {:induction false} UnitsAllowed(us: seq<Unit>, inAttr: bool)
    ensures AllAllowed(Units(EscapeUnits(us, inAttr)), inAttr)
  {
    if us == [] {
      assert Units("") == [];
    } else {
      hide EscapeUnit, Units, AllAllowed;
      UnitAllowed(us[0], inAttr);
      UnitsAllowed(us[1..], inAttr);
      AllowedConcat(EscapeUnit(us[0], inAttr), EscapeUnits(us[1..], inAttr), inAttr);
    }
  }

  /** Escaped text is valid UTF-8 without a restricted character, and in an attribute without a quote or line break. */
  lemma EscapedAllowed(s: string, inAttr: bool)
    ensures AllAllowed(Units(Escaped(s, inAttr)), inAttr) && ValidText(Escaped(s, inAttr))
  {
    UnitsAllowed(Units(s), inAttr);
    assert forall i :: 0 <= i < |Units(Escaped(s, inAttr))| ==> AllowedUnit(Units(Escaped(s, inAttr))[i], inAttr);
  }

  // --- and back

  function IndexOf(t: string, c: char): (i: nat)
    ensures i <= |t| && (forall k :: 0 <= k < i ==> t[k] != c) && (i < |t| ==> t[i] == c)
  {
    if t == "" || t[0] == c then 0 else 1 + IndexOf(t[1..], c)
  }

  predicate AllDigits(s: string) {
    forall i :: 0 <= i < |s| ==> IsDigit(s[i])
  }

  /** What a reference stands for. */
  function Referred(name: string): string {
    if name == "amp" then "&"
    else if name == "lt" then "<"
    else if name == "gt" then ">"
    else if name == "quot" then ['"']
    else if |name| > 1 && name[0] == '#' && AllDigits(name[1..]) && Scalar(Value(name[1..])) then Encode(Value(name[1..]))
    else ""
  }

  /** A reader that expands references, and changes nothing else. */
  function Expand(t: string): string
    decreases |t|
  {
    if t == "" then ""
    else if t[0] != '&' then [t[0]] + Expand(t[1..])
    else
      var n := IndexOf(t, ';');
      if n == |t| then t else Referred(t[1..n]) + Expand(t[n + 1..])
  }

  lemma ExpandOne(t: string)
    requires t != "" && t[0] != '&'
    ensures Expand(t) == [t[0]] + Expand(t[1..])
  {
  }

  lemma {:induction false} ExpandPlain(a: string, rest: string)
    requires '&' !in a
    ensures Expand(a + rest) == a + Expand(rest)
  {
    hide Expand;
    if a == "" {
      assert a + rest == rest;
      assert a + Expand(rest) == Expand(rest);
    } else {
      ExpandPlain(a[1..], rest);
      Tail(a, rest);
      ExpandOne(a + rest);
      Associates([a[0]], a[1..], Expand(rest));
      assert [a[0]] + a[1..] == a;
    }
  }

  lemma FirstIndex(t: string, c: char, i: nat)
    requires i < |t| && t[i] == c && forall k :: 0 <= k < i ==> t[k] != c
    ensures IndexOf(t, c) == i
  {
  }

  lemma ExpandAt(t: string, n: nat)
    requires t != "" && t[0] == '&' && n == IndexOf(t, ';') < |t|
    ensures n >= 1 && Expand(t) == Referred(t[1..n]) + Expand(t[n + 1..])
  {
    hide Referred;
    assert t[0] != ';' && t[n] == ';';
  }

  lemma ExpandReference(name: string, rest: string)
    requires ';' !in name
    ensures Expand("&" + name + ";" + rest) == Referred(name) + Expand(rest)
  {
    hide Referred, Expand;
    var t := "&" + name + ";" + rest;
    assert t[|name| + 1] == ';';
    assert forall k :: 1 <= k <= |name| ==> t[k] == name[k - 1];
    FirstIndex(t, ';', |name| + 1);
    ExpandAt(t, |name| + 1);
    assert t[1..|name| + 1] == name && t[|name| + 2..] == rest;
  }

  lemma ReferredNumber(n: nat)
    requires Scalar(n)
    ensures Referred("#" + Decimal(n)) == Encode(n) && ';' !in "#" + Decimal(n)
  {
    var name := "#" + Decimal(n);
    assert name[0] == '#' && name[1..] == Decimal(n);
    DecimalTells(n);
  }

  /** What a reader sees of a unit: the character, or for a byte that is none, the character of that number. */
  function Seen(u: Unit): string {
    if u.Good? then if Scalar(u.rune) then Encode(u.rune) else "" else if 0 <= u.byte < 256 then Encode(u.byte) else ""
  }

  predicate Real(u: Unit) {
    if u.Good? then Scalar(u.rune) else 0 <= u.byte < 256
  }

  lemma ExpandNumber(n: nat, rest: string)
    requires Scalar(n)
    ensures Expand(Reference(n) + rest) == Encode(n) + Expand(rest)
  {
    hide Expand, Referred, Decimal;
    ReferredNumber(n);
    ExpandReference("#" + Decimal(n), rest);
    assert Reference(n) + rest == "&" + ("#" + Decimal(n)) + ";" + rest;
  }

  lemma ExpandName(name: string, rest: string, c: char)
    requires (name == "amp" && c == '&') || (name == "lt" && c == '<') || (name == "gt" && c == '>') || (name == "quot" && c == '"')
    ensures Expand("&" + name + ";" + rest) == Encode(c as int) + Expand(rest)
  {
    hide Expand;
    ExpandReference(name, rest);
    RuneSize(c as int);
    assert Referred(name) == [c];
  }

  lemma ExpandUnit(u: Unit, inAttr: bool, rest: string)
    requires Real(u)
    ensures Expand(EscapeUnit(u, inAttr) + rest) == Seen(u) + Expand(rest)
  {
    hide Expand, Reference, Encode;
    if u.Bad? {
      ExpandNumber(u.byte, rest);
    } else if u.rune == '&' as int {
      ExpandName("amp", rest, '&');
      assert "&" + "amp" + ";" == "&amp;";
    } else if u.rune == '<' as int {
      ExpandName("lt", rest, '<');
      assert "&" + "lt" + ";" == "&lt;";
    } else if u.rune == '>' as int {
      ExpandName("gt", rest, '>');
      assert "&" + "gt" + ";" == "&gt;";
    } else if inAttr && u.rune == '"' as int {
      ExpandName("quot", rest, '"');
      assert "&" + "quot" + ";" == "&quot;";
    } else if MustReference(u.rune) || (inAttr && Quoting(u.rune)) {
      ExpandNumber(u.rune, rest);
    } else {
      RawRune(u.rune);
      ExpandPlain(Encode(u.rune), rest);
    }
  }

  lemma RawRune(r: int)
    requires Scalar(r) && r != '&' as int
    ensures '&' !in Encode(r)
  {
    RuneClean(r);
  }

  function AllSeen(us: seq<Unit>): string {
    if us == [] then "" else Seen(us[0]) + AllSeen(us[1..])
  }

  predicate AllReal(us: seq<Unit>) {
    forall i :: 0 <= i < |us| ==> Real(us[i])
  }

  lemma {:induction false} ExpandUnits(us: seq<Unit>, inAttr: bool)
    requires AllReal(us)
    ensures Expand(EscapeUnits(us, inAttr)) == AllSeen(us)
  {
    if us != [] {
      hide Expand, EscapeUnit, Seen;
      assert AllReal(us[1..]);
      ExpandUnits(us[1..], inAttr);
      ExpandUnit(us[0], inAttr, EscapeUnits(us[1..], inAttr));
    }
  }

  lemma {:induction false} UnitsReal(s: string)
    requires Bytes(s)
    ensures AllReal(Units(s))
    decreases |s|
  {
    if s != "" {
      hide Units;
      FrontReal(s);
      var rest := s[SizeOf(Decode(s))..];
      UnitsReal(rest);
      UnitsFront(s);
    }
  }

  lemma FrontReal(s: string)
    requires Bytes(s) && s != ""
    ensures Real(Decode(s))
  {
    if Decode(s).Good? {
      DecodeIsEncode(s);
    }
  }

  lemma UnitsFront(s: string)
    requires s != ""
    ensures Units(s) == [Decode(s)] + Units(s[SizeOf(Decode(s))..])
  {
  }

  lemma SeenStep(s: string)
    requires Bytes(s) && s != "" && ValidText(s)
    ensures AllSeen(Units(s)) == s[..SizeOf(Decode(s))] + AllSeen(Units(Rest(s)))
    ensures ValidText(Rest(s)) && Bytes(Rest(s)) && |Rest(s)| < |s| && s == s[..SizeOf(Decode(s))] + Rest(s)
  {
    hide Units, Decode, Encode;
    UnitsFront(s);
    var u := Decode(s);
    TailGood(u, Units(Rest(s)));
    DecodeIsEncode(s);
    assert ([u] + Units(Rest(s)))[1..] == Units(Rest(s));
  }

  lemma {:induction false} SeenIsText(s: string)
    requires Bytes(s) && ValidText(s)
    ensures AllSeen(Units(s)) == s
    decreases |s|
  {
    if s == "" {
      assert Units(s) == [];
    } else {
      hide *;
      SeenStep(s);
      SeenIsText(Rest(s));
    }
  }

  lemma {:induction false} SeenIsValid(us: seq<Unit>)
    requires AllReal(us)
    ensures ValidText(AllSeen(us))
  {
    if us == [] {
      assert Units("") == [];
    } else {
      hide Units, AllGood, Encode;
      assert AllReal(us[1..]);
      SeenIsValid(us[1..]);
      UnitsOfRune(if us[0].Good? then us[0].rune else us[0].byte);
      ValidConcat(Seen(us[0]), AllSeen(us[1..]));
    }
  }

  /** Expanding references takes escaping back exactly on valid UTF-8, in text and in attributes. */
  lemma ExpandUndoes(s: string, inAttr: bool)
    requires Bytes(s)
    ensures Expand(Escaped(s, inAttr)) == s <==> ValidText(s)
  {
    hide Expand, EscapeUnits, Units, AllSeen, AllReal;
    UnitsReal(s);
    ExpandUnits(Units(s), inAttr);
    SeenIsValid(Units(s));
    if ValidText(s) {
      SeenIsText(s);
    }
  }

  // --- character by character

  /** How one character is written, in text or in an attribute value; as it is, unless this says otherwise. */
  function AsWritten(c: char, inAttr: bool): string {
    if c == '&' then "&amp;"
    else if c == '<' then "&lt;"
    else if c == '>' then "&gt;"
    else if inAttr && c == '"' then "&quot;"
    else if inAttr && c == '\t' then "&#9;"
    else if inAttr && c == '\n' then "&#10;"
    else if inAttr && c == '\r' then "&#13;"
    else [c]
  }

  lemma SmallDecimals()
    ensures Reference(9) == "&#9;" && Reference(10) == "&#10;" && Reference(13) == "&#13;"
  {
    assert Decimal(9) == "9" && Decimal(1) == "1";
    assert Decimal(10) == "1" + "0" && Decimal(13) == "1" + "3";
    assert "&#" + "9" + ";" == "&#9;" && "&#" + "10" + ";" == "&#10;" && "&#" + "13" + ";" == "&#13;";
  }

  /** Printable characters and white space are written so, one by one, whatever follows. */
  lemma CharacterEscapes(c: char, rest: string, inAttr: bool)
    requires ' ' <= c < '\U{007F}' || c in {'\t', '\n', '\r'}
    ensures Escaped([c] + rest, inAttr) == AsWritten(c, inAttr) + Escaped(rest, inAttr)
  {
    hide EscapeUnits;
    var t := [c] + rest;
    assert Decode(t) == Good(c as int, 1);
    assert t[1..] == rest;
    assert Units(t) == [Good(c as int, 1)] + Units(rest);
    EscapeStep(Good(c as int, 1), Units(rest), inAttr);
    SmallDecimals();
    UnitIs(c, inAttr);
  }

  lemma EscapeStep(u: Unit, us: seq<Unit>, inAttr: bool)
    ensures EscapeUnits([u] + us, inAttr) == EscapeUnit(u, inAttr) + EscapeUnits(us, inAttr)
  {
    assert ([u] + us)[1..] == us;
  }

  lemma UnitIs(c: char, inAttr: bool)
    requires ' ' <= c < '\U{007F}' || c in {'\t', '\n', '\r'}
    ensures EscapeUnit(Good(c as int, 1), inAttr) == AsWritten(c, inAttr)
  {
    SmallDecimals();
    assert c as int < 0x80 ==> Encode(c as int) == [c];
  }
}
