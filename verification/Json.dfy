/** JSON objects as section 4 of RFC 8259 writes them. A character stands for one byte of the text. */
module Json {
  import opened Wrappers

  predicate IsSpace(c: char) {
    c == ' ' || c == '\t' || c == '\n' || c == '\r'
  }

  predicate Blank(s: string) {
    forall i :: 0 <= i < |s| ==> IsSpace(s[i])
  }

  predicate IsDigit(c: char) {
    '0' <= c <= '9'
  }

  predicate IsHex(c: char) {
    IsDigit(c) || 'a' <= c <= 'f' || 'A' <= c <= 'F'
  }

  predicate Digits(s: string) {
    s != "" && forall i :: 0 <= i < |s| ==> IsDigit(s[i])
  }

  /** One character of a string, as it is written. */
  datatype Unit = Raw(c: char) | Escape(c: char) | Code(a: char, b: char, c: char, d: char)

  predicate ValidUnit(u: Unit) {
    match u
    case Raw(c) => c >= ' ' && c != '"' && c != '\\'
    case Escape(c) => c in {'"', '\\', '/', 'b', 'f', 'n', 'r', 't'}
    case Code(a, b, c, d) => IsHex(a) && IsHex(b) && IsHex(c) && IsHex(d)
  }

  function UnitText(u: Unit): string {
    match u
    case Raw(c) => [c]
    case Escape(c) => ['\\', c]
    case Code(a, b, c, d) => ['\\', 'u', a, b, c, d]
  }

  function UnitsText(us: seq<Unit>): string {
    if us == [] then "" else UnitsText(us[..|us| - 1]) + UnitText(us[|us| - 1])
  }

  predicate ValidUnits(us: seq<Unit>) {
    forall i :: 0 <= i < |us| ==> ValidUnit(us[i])
  }

  function Quoted(us: seq<Unit>): string {
    ['"'] + UnitsText(us) + ['"']
  }

  /** A number: an optional minus, digits without a leading zero, a fraction, an exponent. */
  datatype Number = Number(minus: bool, whole: string, fraction: Option<string>, exponent: Option<Exponent>)
  datatype Exponent = Exponent(mark: char, sign: Option<char>, digits: string)

  predicate ValidNumber(n: Number) {
    && Digits(n.whole) && (n.whole[0] == '0' ==> |n.whole| == 1)
    && (n.fraction.Some? ==> Digits(n.fraction.value))
    && (n.exponent.Some? ==>
          && n.exponent.value.mark in {'e', 'E'} && Digits(n.exponent.value.digits)
          && (n.exponent.value.sign.Some? ==> n.exponent.value.sign.value in {'+', '-'}))
  }

  function NumberText(n: Number): string {
    (if n.minus then ['-'] else []) + n.whole
    + (if n.fraction.Some? then ['.'] + n.fraction.value else [])
    + (if n.exponent.Some? then
         [n.exponent.value.mark] + (if n.exponent.value.sign.Some? then [n.exponent.value.sign.value] else []) + n.exponent.value.digits
       else [])
  }

  datatype Value =
    | Text(units: seq<Unit>)
    | Num(number: Number)
    | Word(word: string)
    | Array(pad: string, items: seq<Item>)
    | Object(pad: string, members: seq<Member>)

  /** White space before and after a value. */
  datatype Item = Item(before: string, value: Value, after: string)

  /** White space before the key, on both sides of the colon, and after the value. */
  datatype Member = Member(before: string, key: seq<Unit>, mid: string, colon: string, value: Value, after: string)

  predicate Valid(v: Value) {
    match v
    case Text(us) => ValidUnits(us)
    case Num(n) => ValidNumber(n)
    case Word(w) => w in {"true", "false", "null"}
    case Array(pad, items) =>
      Blank(pad) && forall i :: 0 <= i < |items| ==> Blank(items[i].before) && Blank(items[i].after) && Valid(items[i].value)
    case Object(pad, members) =>
      Blank(pad) && forall i :: 0 <= i < |members| ==> ValidMember(members[i])
  }

  predicate ValidMember(m: Member) {
    Blank(m.before) && ValidUnits(m.key) && Blank(m.mid) && Blank(m.colon) && Valid(m.value) && Blank(m.after)
  }

  function Comma(i: nat): string {
    if i == 0 then "" else ","
  }

  function Print(v: Value): string {
    match v
    case Text(us) => Quoted(us)
    case Num(n) => NumberText(n)
    case Word(w) => w
    case Array(pad, items) => ['['] + (if items == [] then pad else PrintItems(v, |items|)) + [']']
    case Object(pad, members) => ['{'] + (if members == [] then pad else PrintMembers(v, |members|)) + ['}']
  }

  function PrintItem(m: Item): string {
    m.before + Print(m.value) + m.after
  }

  function PrintMember(m: Member): string {
    m.before + Quoted(m.key) + m.mid + [':'] + m.colon + Print(m.value) + m.after
  }

  /** The first n items of v, with commas between them. */
  function PrintItems(v: Value, n: nat): string
    requires v.Array? && n <= |v.items|
    decreases v, n
  {
    if n == 0 then "" else PrintItems(v, n - 1) + Comma(n - 1) + PrintItem(v.items[n - 1])
  }

  function PrintMembers(v: Value, n: nat): string
    requires v.Object? && n <= |v.members|
    decreases v, n
  {
    if n == 0 then "" else PrintMembers(v, n - 1) + Comma(n - 1) + PrintMember(v.members[n - 1])
  }
}
