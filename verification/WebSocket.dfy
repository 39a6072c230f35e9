/** WebSocket frames (RFC 6455, section 5), and a connection that reads like a plain stream (socket/websocket.go). */
module WebSocket {
  import opened Wrappers

  type Byte = b: int | 0 <= b < 256

  const MaxFrame: nat := 67108864

  const OpContinuation: Byte := 0
  const OpText: Byte := 1
  const OpBinary: Byte := 2
  const OpClose: Byte := 8
  const OpPing: Byte := 9
  const OpPong: Byte := 10

  // --- masking

  /** Exclusive or, bit by bit. */
  function Xor(a: nat, b: nat): nat {
    if a == 0 && b == 0 then 0 else (a % 2 + b % 2) % 2 + 2 * Xor(a / 2, b / 2)
  }

  lemma XorParts(a: nat, b: nat)
    ensures Xor(a, b) % 2 == (a % 2 + b % 2) % 2 && Xor(a, b) / 2 == Xor(a / 2, b / 2)
  {
  }

  lemma Bits(x: nat, y: nat)
    requires x < 2 && y < 2
    ensures ((x + y) % 2 + y) % 2 == x
  {
  }

  lemma Halves(a: nat, b: nat)
    requires a % 2 == b % 2 && a / 2 == b / 2
    ensures a == b
  {
  }

  lemma {:induction false} XorTwice(a: nat, b: nat)
    ensures Xor(Xor(a, b), b) == a
  {
    if a != 0 || b != 0 {
      hide Xor;
      XorTwice(a / 2, b / 2);
      XorParts(a, b);
      XorParts(Xor(a, b), b);
      Bits(a % 2, b % 2);
      Halves(Xor(Xor(a, b), b), a);
    }
  }

  function Power(n: nat): nat {
    if n == 0 then 1 else 2 * Power(n - 1)
  }

  lemma {:induction false} XorBelow(a: nat, b: nat, n: nat)
    requires a < Power(n) && b < Power(n)
    ensures Xor(a, b) < Power(n)
  {
    if n > 0 && (a != 0 || b != 0) {
      XorBelow(a / 2, b / 2, n - 1);
    }
  }

  function XorByte(a: Byte, b: Byte): Byte {
    assert Power(8) == 256;
    XorBelow(a, b, 8);
    Xor(a, b)
  }

  /** Section 5.3: byte i of the payload is combined with byte i mod 4 of the key. */
  function Masked(payload: seq<Byte>, mask: seq<Byte>): (r: seq<Byte>)
    requires |mask| == 4
    ensures |r| == |payload|
    ensures forall i :: 0 <= i < |payload| ==> r[i] == XorByte(payload[i], mask[i % 4])
  {
    if payload == [] then []
    else
      var i := |payload| - 1;
      Masked(payload[..i], mask) + [XorByte(payload[i], mask[i % 4])]
  }

  /** Masking again takes the mask off. */
  lemma MaskTwice(payload: seq<Byte>, mask: seq<Byte>)
    requires |mask| == 4
    ensures Masked(Masked(payload, mask), mask) == payload
  {
    forall i | 0 <= i < |payload| ensures Masked(Masked(payload, mask), mask)[i] == payload[i] {
      XorTwice(payload[i], mask[i % 4]);
    }
  }

  method Unmask(payload: array<Byte>, mask: seq<Byte>)
    requires |mask| == 4
    modifies payload
    ensures payload[..] == Masked(old(payload[..]), mask)
  {
    hide XorByte;
    for i := 0 to payload.Length
      invariant forall k :: 0 <= k < i ==> payload[k] == XorByte(old(payload[k]), mask[k % 4])
      invariant forall k :: i <= k < payload.Length ==> payload[k] == old(payload[k])
    {
      payload[i] := XorByte(payload[i], mask[i % 4]);
    }
  }

  // --- lengths

  function BigEndian(n: nat, width: nat): (bs: seq<Byte>)
    ensures |bs| == width
  {
    if width == 0 then [] else BigEndian(n / 256, width - 1) + [n % 256]
  }

  function Number(bs: seq<Byte>): nat {
    if bs == [] then 0 else 256 * Number(bs[..|bs| - 1]) + bs[|bs| - 1]
  }

  function Bound(width: nat): nat {
    if width == 0 then 1 else 256 * Bound(width - 1)
  }

  lemma {:induction false} BigEndianTells(n: nat, width: nat)
    requires n < Bound(width)
    ensures Number(BigEndian(n, width)) == n
  {
    if width > 0 {
      BigEndianTells(n / 256, width - 1);
      assert BigEndian(n, width)[..width - 1] == BigEndian(n / 256, width - 1);
    }
  }

  /** Section 5.2: seven bits, or 126 and two bytes, or 127 and eight. */
  function Length(n: nat): (bs: seq<Byte>)
    ensures bs != [] && bs[0] < 128
  {
    if n < 126 then [n]
    else if n <= 0xFFFF then [126] + BigEndian(n, 2)
    else [127] + BigEndian(n, 8)
  }

  /** How many bytes of extended length follow the first. */
  function Extra(code: nat): nat {
    if code == 126 then 2 else if code == 127 then 8 else 0
  }

  /** What a length says, the mask bit aside. */
  function LengthOf(bs: seq<Byte>): nat
    requires bs != []
  {
    var code := bs[0] % 128;
    if code < 126 then code else Number(bs[1..])
  }

  predicate IsLength(bs: seq<Byte>) {
    bs != [] && bs[0] < 128 && |bs| == 1 + Extra(bs[0])
  }

  lemma Bounds()
    ensures Bound(2) == 0x1_0000 && Bound(8) == 0x1_0000_0000_0000_0000
  {
    assert Bound(1) == 256 && Bound(2) == 0x1_0000 && Bound(3) == 0x100_0000 && Bound(4) == 0x1_0000_0000;
    assert Bound(5) == 0x100_0000_0000 && Bound(6) == 0x1_0000_0000_0000 && Bound(7) == 0x100_0000_0000_0000;
  }

  lemma LengthTells(n: nat)
    requires n <= MaxFrame
    ensures IsLength(Length(n)) && LengthOf(Length(n)) == n
  {
    hide BigEndian, Number;
    Bounds();
    if n >= 126 {
      var width := if n <= 0xFFFF then 2 else 8;
      BigEndianTells(n, width);
      assert Length(n)[1..] == BigEndian(n, width);
    }
  }

  lemma {:induction false} NumberBelow(bs: seq<Byte>)
    ensures Number(bs) < Bound(|bs|)
  {
    if bs != [] {
      NumberBelow(bs[..|bs| - 1]);
    }
  }

  /** No length that says the same is shorter. */
  lemma LengthIsMinimal(n: nat, bs: seq<Byte>)
    requires n <= MaxFrame && IsLength(bs) && LengthOf(bs) == n
    ensures |Length(n)| <= |bs|
  {
    Bounds();
    if bs[0] == 126 {
      NumberBelow(bs[1..]);
    }
  }

  // --- frames

  /** A frame, or why there is none: the stream ended where a part of the frame was to begin, or inside such a part, or
      the frame is over the limit. */
  datatype Read = Frame(op: Byte, payload: seq<Byte>) | Ended | Cut | TooLong

  /** A frame as it is written: final, unmasked, its length in the shortest form. */
  function Written(op: Byte, payload: seq<Byte>): seq<Byte>
    requires op < 16
  {
    [0x80 + op] + Length(|payload|) + payload
  }

  /** There are so many bytes of a part that should have more. */
  function Missing(have: nat): Read {
    if have == 0 then Ended else Cut
  }

  /** What the reader makes of the bytes to come, and what it leaves. */
  function Parse(s: seq<Byte>): (r: (Read, seq<Byte>))
    ensures r.0.Frame? ==> |r.1| + 2 <= |s|
  {
    if |s| < 2 then (Missing(|s|), [])
    else
      var extra := Extra(s[1] % 128);
      if |s| < 2 + extra then (Missing(|s| - 2), [])
      else
        var length := if extra == 0 then s[1] % 128 else Number(s[2..2 + extra]);
        if length > MaxFrame then (TooLong, s[2 + extra..]) else ParseBody(s[0] % 16, s[1] >= 128, length, s[2 + extra..])
  }

  function ParseBody(op: Byte, masked: bool, length: nat, body: seq<Byte>): (r: (Read, seq<Byte>))
    ensures r.0.Frame? ==> |r.1| <= |body|
  {
    var key := if masked then 4 else 0;
    if |body| < key then (Missing(|body|), [])
    else if |body| < key + length then (Missing(|body| - key), [])
    else if masked then (Frame(op, Masked(body[4..4 + length], body[..4])), body[4 + length..])
    else (Frame(op, body[..length]), body[length..])
  }

  // --- frames of every form

  /** A frame as it may come: any first byte, any form of its length, with a mask or without. */
  datatype Wired = Wired(head: Byte, length: seq<Byte>, mask: Option<seq<Byte>>, payload: seq<Byte>)

  predicate ValidWired(f: Wired) {
    && IsLength(f.length) && LengthOf(f.length) == |f.payload| <= MaxFrame
    && (f.mask.Some? ==> |f.mask.value| == 4)
  }

  /** Section 5.2: the opcode is the low half of the first byte; whether the frame is the last of its message is the top
      bit. */
  function Op(f: Wired): Byte {
    f.head % 16
  }

  function Body(f: Wired): seq<Byte>
    requires ValidWired(f)
  {
    if f.mask.Some? then f.mask.value + Masked(f.payload, f.mask.value) else f.payload
  }

  function FrameBytes(f: Wired): seq<Byte>
    requires ValidWired(f)
  {
    [f.head] + [f.length[0] + if f.mask.Some? then 128 else 0] + f.length[1..] + Body(f)
  }

  lemma ParseHead(s: seq<Byte>, f: Wired, body: seq<Byte>)
    requires ValidWired(f)
    requires s == [f.head] + [f.length[0] + if f.mask.Some? then 128 else 0] + f.length[1..] + body
    ensures Parse(s) == ParseBody(f.head % 16, f.mask.Some?, |f.payload|, body)
  {
    hide Number, ParseBody;
    var extra := Extra(f.length[0]);
    assert s[1] % 128 == f.length[0];
    assert s[2..2 + extra] == f.length[1..];
    assert s[2 + extra..] == body;
  }

  /** Every such frame is read: its opcode and its payload, without the mask, and what follows is left. */
  lemma FrameIsRead(f: Wired, rest: seq<Byte>)
    requires ValidWired(f)
    ensures Parse(FrameBytes(f) + rest) == (Frame(Op(f), f.payload), rest)
  {
    hide Length, Number, Masked, Parse;
    var s := FrameBytes(f) + rest;
    assert s == [f.head] + [f.length[0] + if f.mask.Some? then 128 else 0] + f.length[1..] + (Body(f) + rest);
    ParseHead(s, f, Body(f) + rest);
    if f.mask.Some? {
      var mask := f.mask.value;
      var masked := Masked(f.payload, mask);
      MaskTwice(f.payload, mask);
      var body := mask + masked + rest;
      assert body[..4] == mask && body[4..4 + |f.payload|] == masked && body[4 + |f.payload|..] == rest;
    } else {
      assert (f.payload + rest)[..|f.payload|] == f.payload && (f.payload + rest)[|f.payload|..] == rest;
    }
  }

  lemma {:induction false} BodyIsFrame(op: Byte, masked: bool, length: nat, body: seq<Byte>) returns (mask: Option<seq<Byte>>, payload: seq<Byte>)
    requires ParseBody(op, masked, length, body).0.Frame?
    ensures |payload| == length && mask.Some? == masked && (mask.Some? ==> |mask.value| == 4)
    ensures body == (if mask.Some? then mask.value + Masked(payload, mask.value) else payload) + ParseBody(op, masked, length, body).1
    ensures ParseBody(op, masked, length, body).0 == Frame(op, payload)
  {
    hide Masked;
    if masked {
      mask, payload := Some(body[..4]), Masked(body[4..4 + length], body[..4]);
      MaskTwice(body[4..4 + length], body[..4]);
      assert body == body[..4] + body[4..4 + length] + body[4 + length..];
    } else {
      mask, payload := None, body[..length];
      assert body == body[..length] + body[length..];
    }
  }

  /** And nothing else is: what is read as a frame is one. */
  lemma {:induction false} ReadIsFrame(s: seq<Byte>) returns (f: Wired)
    requires Parse(s).0.Frame?
    ensures ValidWired(f) && s == FrameBytes(f) + Parse(s).1 && Parse(s).0 == Frame(Op(f), f.payload)
  {
    hide LengthOf, ParseBody, Masked, FrameBytes;
    ParsedHead(s);
    var length := HeadLengthOf(s);
    var rest := s[2 + Extra(s[1] % 128)..];
    var mask, payload := BodyIsFrame(s[0] % 16, s[1] >= 128, LengthOf(length), rest);
    f := Wired(s[0], length, mask, payload);
    HeadAndBody(s, f, Parse(s).1);
  }

  /** Where a frame is read, its head is whole and its body is read by what the head says. */
  lemma {:induction false} ParsedHead(s: seq<Byte>)
    requires Parse(s).0.Frame?
    ensures |s| >= 2 && |s| >= 2 + Extra(s[1] % 128)
    ensures var extra := Extra(s[1] % 128);
      var length := if extra == 0 then s[1] % 128 else Number(s[2..2 + extra]);
      length <= MaxFrame && Parse(s) == ParseBody(s[0] % 16, s[1] >= 128, length, s[2 + extra..])
  {
    hide Number, ParseBody;
  }

  lemma {:induction false} HeadAndBody(s: seq<Byte>, f: Wired, rest: seq<Byte>)
    requires ValidWired(f) && |s| >= 2 && |s| >= 2 + Extra(s[1] % 128)
    requires f.head == s[0] && f.length[0] == s[1] % 128 && f.length[1..] == s[2..2 + Extra(s[1] % 128)]
    requires f.mask.Some? == (s[1] >= 128) && s[2 + Extra(s[1] % 128)..] == Body(f) + rest
    ensures s == FrameBytes(f) + rest
  {
    hide Masked, Number, Body;
    InParts(s, Extra(s[1] % 128));
  }

  /** The length as the head of a frame has it, without the mask bit. */
  lemma {:induction false} HeadLengthOf(s: seq<Byte>) returns (length: seq<Byte>)
    requires |s| >= 2 && |s| >= 2 + Extra(s[1] % 128)
    ensures IsLength(length) && length[0] == s[1] % 128 && length[1..] == s[2..2 + Extra(s[1] % 128)]
    ensures LengthOf(length) == if Extra(s[1] % 128) == 0 then s[1] % 128 else Number(s[2..2 + Extra(s[1] % 128)])
  {
    hide Number;
    length := [s[1] % 128] + s[2..2 + Extra(s[1] % 128)];
    assert length[1..] == s[2..2 + Extra(s[1] % 128)];
  }

  lemma InParts(s: seq<Byte>, extra: nat)
    requires |s| >= 2 + extra
    ensures s == [s[0]] + [s[1]] + s[2..2 + extra] + s[2 + extra..]
  {
    assert s[..2] == [s[0]] + [s[1]];
    assert s == s[..2] + s[2..];
    assert s[2..] == s[2..][..extra] + s[2..][extra..];
  }

  /** Reading back what was written gives the opcode and the payload, and leaves what follows. */
  lemma WriteThenRead(op: Byte, payload: seq<Byte>, rest: seq<Byte>)
    requires op < 16 && |payload| <= MaxFrame
    ensures Parse(Written(op, payload) + rest) == (Frame(op, payload), rest)
  {
    hide Length, Number, Parse;
    LengthTells(|payload|);
    var f := Wired(0x80 + op, Length(|payload|), None, payload);
    FrameIsRead(f, rest);
    assert FrameBytes(f) == Written(op, payload);
  }

  /** A frame as a client sends it: with the mask bit, the key, and the payload masked. */
  function Sent(op: Byte, mask: seq<Byte>, payload: seq<Byte>): seq<Byte>
    requires op < 16 && |mask| == 4
  {
    var length := Length(|payload|);
    [0x80 + op] + [length[0] + 128] + length[1..] + mask + Masked(payload, mask)
  }

  /** And the reader takes a client's mask off. */
  lemma SendThenRead(op: Byte, mask: seq<Byte>, payload: seq<Byte>, rest: seq<Byte>)
    requires op < 16 && |mask| == 4 && |payload| <= MaxFrame
    ensures Parse(Sent(op, mask, payload) + rest) == (Frame(op, payload), rest)
  {
    hide Length, Number, Masked, Parse;
    LengthTells(|payload|);
    var f := Wired(0x80 + op, Length(|payload|), Some(mask), payload);
    FrameIsRead(f, rest);
    assert FrameBytes(f) == Sent(op, mask, payload);
  }

  // --- a stream of bytes

  predicate IsData(op: Byte) {
    op == OpText || op == OpBinary || op == OpContinuation
  }

  /** The bytes that the frames of a stream carry, up to the first that closes. */
  function Data(s: seq<Byte>): seq<Byte>
    decreases |s|
  {
    var (r, rest) := Parse(s);
    if !r.Frame? || r.op == OpClose then [] else (if IsData(r.op) then r.payload else []) + Data(rest)
  }

  /** What answers them: a pong for every ping before the first that closes. */
  function Pongs(s: seq<Byte>): seq<Byte>
    decreases |s|
  {
    var (r, rest) := Parse(s);
    if !r.Frame? || r.op == OpClose then [] else (if r.op == OpPing then Written(OpPong, r.payload) else []) + Pongs(rest)
  }

  /** How it ends: on a frame that closes, or with no frame. */
  function End(s: seq<Byte>): Read
    decreases |s|
  {
    var (r, rest) := Parse(s);
    if !r.Frame? || r.op == OpClose then r else End(rest)
  }

  predicate Clean(s: seq<Byte>) {
    End(s).Frame? || End(s).Ended?
  }

  lemma StreamStep(s: seq<Byte>)
    ensures var (r, rest) := Parse(s);
            if !r.Frame? || r.op == OpClose then Data(s) == [] && Pongs(s) == [] && End(s) == r
            else && Data(s) == (if IsData(r.op) then r.payload else []) + Data(rest)
                 && Pongs(s) == (if r.op == OpPing then Written(OpPong, r.payload) else []) + Pongs(rest)
                 && End(s) == End(rest)
  {
    hide Parse;
  }

  predicate AllValid(fs: seq<Wired>) {
    forall i :: 0 <= i < |fs| ==> ValidWired(fs[i])
  }

  function Wire(fs: seq<Wired>): seq<Byte>
    requires AllValid(fs)
  {
    if fs == [] then [] else FrameBytes(fs[0]) + Wire(fs[1..])
  }

  /** The payloads of the data frames among these, in order. */
  function DataOf(fs: seq<Wired>): seq<Byte> {
    if fs == [] then [] else (if IsData(Op(fs[0])) then fs[0].payload else []) + DataOf(fs[1..])
  }

  function PongsOf(fs: seq<Wired>): seq<Byte> {
    if fs == [] then [] else (if Op(fs[0]) == OpPing then Written(OpPong, fs[0].payload) else []) + PongsOf(fs[1..])
  }

  predicate NoneCloses(fs: seq<Wired>) {
    forall i :: 0 <= i < |fs| ==> Op(fs[i]) != OpClose
  }

  /** Frames that do not close give the payloads of the data frames among them, and then what follows gives the rest,
      however they are made: final or not, masked or not. */
  lemma {:induction false} FramesAreRead(fs: seq<Wired>, tail: seq<Byte>)
    requires AllValid(fs) && NoneCloses(fs)
    ensures Data(Wire(fs) + tail) == DataOf(fs) + Data(tail)
    ensures Pongs(Wire(fs) + tail) == PongsOf(fs) + Pongs(tail) && End(Wire(fs) + tail) == End(tail)
  {
    hide Data, Pongs, End, Parse, FrameBytes, Written;
    if fs == [] {
      assert Wire(fs) + tail == tail;
    } else {
      hide DataOf, PongsOf;
      var more := fs[1..];
      FramesAreRead(more, tail);
      FrameIsRead(fs[0], Wire(more) + tail);
      assert Wire(fs) + tail == FrameBytes(fs[0]) + (Wire(more) + tail);
      StreamStep(Wire(fs) + tail);
      FirstOf(fs);
      var d, p := if IsData(Op(fs[0])) then fs[0].payload else [], if Op(fs[0]) == OpPing then Written(OpPong, fs[0].payload) else [];
      assert d + (DataOf(more) + Data(tail)) == d + DataOf(more) + Data(tail);
      assert p + (PongsOf(more) + Pongs(tail)) == p + PongsOf(more) + Pongs(tail);
    }
  }

  lemma FirstOf(fs: seq<Wired>)
    requires fs != []
    ensures DataOf(fs) == (if IsData(Op(fs[0])) then fs[0].payload else []) + DataOf(fs[1..])
    ensures PongsOf(fs) == (if Op(fs[0]) == OpPing then Written(OpPong, fs[0].payload) else []) + PongsOf(fs[1..])
  {
  }

  /** Nothing after a frame that closes is looked at. */
  lemma CloseEnds(f: Wired, tail: seq<Byte>)
    requires ValidWired(f) && Op(f) == OpClose
    ensures Data(FrameBytes(f) + tail) == [] && Pongs(FrameBytes(f) + tail) == [] && End(FrameBytes(f) + tail).Frame?
  {
    hide Data, Pongs, End, Parse, FrameBytes;
    FrameIsRead(f, tail);
    StreamStep(FrameBytes(f) + tail);
  }

  /** So a stream that closes gives what its frames up to there give, whatever they are followed by. */
  lemma ClosedStream(fs: seq<Wired>, f: Wired, tail: seq<Byte>)
    requires AllValid(fs) && NoneCloses(fs) && ValidWired(f) && Op(f) == OpClose
    ensures Data(Wire(fs) + (FrameBytes(f) + tail)) == DataOf(fs) && Pongs(Wire(fs) + (FrameBytes(f) + tail)) == PongsOf(fs)
    ensures Clean(Wire(fs) + (FrameBytes(f) + tail))
  {
    hide Data, Pongs, End, FrameBytes, Wire, DataOf, PongsOf;
    FramesAreRead(fs, FrameBytes(f) + tail);
    CloseEnds(f, tail);
    assert DataOf(fs) + [] == DataOf(fs) && PongsOf(fs) + [] == PongsOf(fs);
  }

  /** Every stream of bytes is frames that do not close, and then one that does or none. */
  lemma {:induction false} AnyStream(s: seq<Byte>) returns (fs: seq<Wired>, tail: seq<Byte>)
    ensures AllValid(fs) && NoneCloses(fs) && s == Wire(fs) + tail
    ensures End(s) == Parse(tail).0 && (Parse(tail).0.Frame? ==> Parse(tail).0.op == OpClose)
    decreases |s|
  {
    hide Parse, FrameBytes;
    var (r, rest) := Parse(s);
    if !r.Frame? || r.op == OpClose {
      fs, tail := [], s;
    } else {
      var f := ReadIsFrame(s);
      var more;
      more, tail := AnyStream(rest);
      fs := [f] + more;
      assert fs[1..] == more;
      assert s == FrameBytes(f) + Wire(more) + tail;
    }
  }

  /** A message in fragments, section 5.4: the first frame has the opcode, the others continue it, the last is final. */
  function Fragments(op: Byte, pieces: seq<seq<Byte>>): seq<Wired>
    requires op < 16 && forall i :: 0 <= i < |pieces| ==> |pieces[i]| <= MaxFrame
  {
    if pieces == [] then []
    else [FirstFragment(op, pieces[0], |pieces| == 1)] + Fragments(OpContinuation, pieces[1..])
  }

  function FirstFragment(op: Byte, piece: seq<Byte>, last: bool): Wired
    requires op < 16
  {
    Wired(if last then 0x80 + op else op, Length(|piece|), None, piece)
  }

  function Joined(pieces: seq<seq<Byte>>): seq<Byte> {
    if pieces == [] then [] else pieces[0] + Joined(pieces[1..])
  }

  /** The fragments of a message read like the message in one frame. */
  lemma {:induction false} FragmentsJoin(op: Byte, pieces: seq<seq<Byte>>)
    requires IsData(op) && forall i :: 0 <= i < |pieces| ==> |pieces[i]| <= MaxFrame
    ensures AllValid(Fragments(op, pieces)) && NoneCloses(Fragments(op, pieces)) && DataOf(Fragments(op, pieces)) == Joined(pieces)
  {
    hide FirstFragment;
    if pieces != [] {
      hide AllValid, NoneCloses, DataOf;
      FragmentsJoin(OpContinuation, pieces[1..]);
      FirstIsData(op, pieces[0], |pieces| == 1);
      JoinFirst(FirstFragment(op, pieces[0], |pieces| == 1), Fragments(OpContinuation, pieces[1..]));
    }
  }

  lemma FirstIsData(op: Byte, piece: seq<Byte>, last: bool)
    requires IsData(op) && |piece| <= MaxFrame
    ensures var f := FirstFragment(op, piece, last);
            ValidWired(f) && Op(f) == op != OpClose && f.payload == piece
  {
    hide Length;
    LengthTells(|piece|);
  }

  lemma JoinFirst(f: Wired, fs: seq<Wired>)
    requires ValidWired(f) && IsData(Op(f)) && Op(f) != OpClose && AllValid(fs) && NoneCloses(fs)
    ensures AllValid([f] + fs) && NoneCloses([f] + fs) && DataOf([f] + fs) == f.payload + DataOf(fs)
  {
    hide ValidWired, Op;
    var all := [f] + fs;
    assert all[1..] == fs;
  }

  // --- the connection

  /** What one read came to: bytes, a clean end, a broken stream, or a ping whose answer could not be written. */
  datatype Got = Bytes(bytes: seq<Byte>) | Eof | Broken | Unanswered

  /** What reading a part of a frame came to. */
  datatype Part = All(bytes: seq<Byte>) | Lacks(why: Read)

  class WsConn {
    var input: seq<Byte>
    var output: seq<Byte>
    var rest: seq<Byte>

    constructor (input: seq<Byte>)
      ensures this.input == input && rest == [] && output == []
    {
      this.input, output, rest := input, [], [];
    }

    method ReadFull(n: nat) returns (got: Part)
      modifies this`input
      ensures got.All? <==> n <= |old(input)|
      ensures got.All? ==> got.bytes == old(input)[..n] && input == old(input)[n..]
      ensures got.Lacks? ==> input == [] && got.why == Missing(|old(input)|)
    {
      if n > |input| {
        got := Lacks(if |input| == 0 then Ended else Cut);
        input := [];
        return;
      }
      got := All(input[..n]);
      input := input[n..];
    }

    method ReadFrame() returns (r: Read)
      modifies this`input
      ensures (r, input) == Parse(old(input))
    {
      hide Masked, Number;
      var s := input;
      var head := ReadFull(2);
      if head.Lacks? {
        return head.why;
      }
      var op := head.bytes[0] % 16;
      var masked := head.bytes[1] >= 128;
      var length: nat := head.bytes[1] % 128;
      var extra := Extra(length);
      if extra > 0 {
        var ext := ReadFull(extra);
        if ext.Lacks? {
          return ext.why;
        }
        length := Number(ext.bytes);
        assert s[2..][..extra] == s[2..2 + extra];
      }
      assert input == s[2 + extra..];
      if length > MaxFrame {
        return TooLong;
      }
      r := ReadBody(op, masked, length);
    }

    method ReadBody(op: Byte, masked: bool, length: nat) returns (r: Read)
      modifies this`input
      ensures (r, input) == ParseBody(op, masked, length, old(input))
    {
      hide Masked;
      var mask := [0, 0, 0, 0];
      ghost var body := input;
      if masked {
        var key := ReadFull(4);
        if key.Lacks? {
          return key.why;
        }
        mask := key.bytes;
      }
      var payload := ReadFull(length);
      if payload.Lacks? {
        return payload.why;
      }
      if masked {
        assert body[4..][..length] == body[4..4 + length];
        var plain := Plain(payload.bytes, mask);
        return Frame(op, plain);
      }
      return Frame(op, payload.bytes);
    }

    /** The payload without its mask. */
    static method Plain(payload: seq<Byte>, mask: seq<Byte>) returns (plain: seq<Byte>)
      requires |mask| == 4
      ensures plain == Masked(payload, mask)
    {
      hide Masked;
      var buffer := new Byte[|payload|](i requires 0 <= i < |payload| => payload[i]);
      assert buffer[..] == payload;
      Unmask(buffer, mask);
      plain := buffer[..];
    }

    /** Writes may fail, after any part of what they were to write. */
    method Put(bytes: seq<Byte>) returns (ok: bool)
      modifies this`output
      ensures old(output) <= output <= old(output) + bytes && (ok ==> output == old(output) + bytes)
    {
      var n: nat :| n <= |bytes|;
      ok := *;
      output := output + if ok then bytes else bytes[..n];
    }

    /** Nothing but the frame is written, and all of it when there is no error. */
    method WriteFrame(op: Byte, payload: seq<Byte>) returns (ok: bool)
      requires op < 16
      modifies this`output
      ensures old(output) <= output <= old(output) + Written(op, payload)
      ensures ok ==> output == old(output) + Written(op, payload)
    {
      var head: seq<Byte> := [0x80 + op];
      var n := |payload|;
      if n < 126 {
        head := head + [n];
      } else if n <= 0xFFFF {
        head := head + [126] + BigEndian(n, 2);
      } else {
        head := head + [127] + BigEndian(n, 8);
      }
      assert head == [0x80 + op] + Length(n);
      assert old(output) + head + payload == old(output) + Written(op, payload);
      ok := Put(head);
      if ok {
        ok := Put(payload);
      }
    }

    /** Bytes for a buffer of this size: some of what the frames to come carry, in order. Pings on the way are answered.
        The end is reported once a frame closes, or the stream ends where a part of a frame was to begin. */
    method Read(size: nat) returns (got: Got)
      requires size > 0
      modifies this
      ensures got.Bytes? ==> 0 < |got.bytes| <= size && got.bytes + (rest + Data(input)) == old(rest) + Data(old(input))
      ensures got.Bytes? ==> output + Pongs(input) == old(output) + Pongs(old(input)) && End(input) == End(old(input))
      ensures old(output) <= output
      ensures got.Eof? || got.Broken? ==> old(rest) + Data(old(input)) == [] && output == old(output) + Pongs(old(input))
      ensures got.Eof? || got.Broken? ==> (got.Eof? <==> Clean(old(input)))
      ensures got.Unanswered? ==> rest + Data(input) == old(rest) + Data(old(input)) && End(input) == End(old(input))
      ensures got.Unanswered? ==> old(output) <= output <= old(output) + Pongs(old(input))
    {
      hide Masked, Number, Length, Parse, Written, Data, Pongs, End;
      ghost var all := rest + Data(input);
      while |rest| == 0
        invariant rest + Data(input) == all
        invariant output + Pongs(input) == old(output) + Pongs(old(input)) && old(output) <= output
        invariant End(input) == End(old(input))
        decreases |input|
      {
        ghost var before := output;
        StreamStep(input);
        var r := ReadFrame();
        if !r.Frame? {
          return if r.Ended? then Eof else Broken;
        }
        if IsData(r.op) {
          rest := r.payload;
        } else if r.op == OpPing {
          var ok := WriteFrame(OpPong, r.payload);
          if !ok {
            PongBegun(old(output) + Pongs(old(input)), before, output, Written(OpPong, r.payload), Pongs(input));
            return Unanswered;
          }
        } else if r.op == OpClose {
          return Eof;
        }
        assert output == before + if r.op == OpPing then Written(OpPong, r.payload) else [];
        assert before + (output[|before|..] + Pongs(input)) == output + Pongs(input);
      }
      var n := if size < |rest| then size else |rest|;
      got := Bytes(rest[..n]);
      assert rest[..n] + rest[n..] == rest;
      rest := rest[n..];
    }
  }

  lemma PongBegun(all: seq<Byte>, before: seq<Byte>, output: seq<Byte>, pong: seq<Byte>, later: seq<Byte>)
    requires all == before + (pong + later) && before <= output <= before + pong
    ensures output <= all
  {
    assert all == before + pong + later;
  }

  /** Reads, whatever the buffer sizes, until there is nothing more: together they give what the frames of the stream carry
      up to the first that closes. Where a pong cannot be written, what was given is the beginning of that, and the rest
      is still to come. */
  method ReadAll(c: WsConn, sizes: seq<nat>, last: nat) returns (out: seq<Byte>, end: Got)
    requires last > 0 && forall i :: 0 <= i < |sizes| ==> sizes[i] > 0
    modifies c
    ensures !end.Bytes? && out + (if end.Unanswered? then c.rest + Data(c.input) else []) == old(c.rest) + Data(old(c.input))
    ensures end.Unanswered? ==> old(c.output) <= c.output <= old(c.output) + Pongs(old(c.input))
    ensures !end.Unanswered? ==> c.output == old(c.output) + Pongs(old(c.input)) && (end.Eof? <==> Clean(old(c.input)))
  {
    hide Data, Pongs, End;
    out := [];
    var i := 0;
    while true
      invariant out + (c.rest + Data(c.input)) == old(c.rest) + Data(old(c.input))
      invariant c.output + Pongs(c.input) == old(c.output) + Pongs(old(c.input)) && old(c.output) <= c.output
      invariant End(c.input) == End(old(c.input))
      decreases |c.rest + Data(c.input)|
    {
      ghost var left := c.rest + Data(c.input);
      var got := c.Read(if i < |sizes| then sizes[i] else last);
      i := i + 1;
      if !got.Bytes? {
        assert out + [] == out;
        return out, got;
      }
      assert out + left == out + got.bytes + (c.rest + Data(c.input));
      out := out + got.bytes;
    }
  }

  // --- a clean end

  /** A stream that breaks off inside a frame may still end cleanly: after the two bytes that begin a frame with a payload,
      say. */
  lemma CutIsClean(n: Byte)
    requires 0 < n < 126
    ensures Clean([0x81, n]) && Data([0x81, n]) == []
  {
    hide Data, Pongs, End, Parse, Number;
    var s: seq<Byte> := [0x81, n];
    EndedExactly(s);
    StreamStep(s);
  }

  /** After frames that do not close, the end is a clean one exactly when a frame closes next, or the stream breaks off
      between the parts of a frame: before its first byte, its longer length, its mask, or its payload. */
  lemma CleanExactly(fs: seq<Wired>, tail: seq<Byte>)
    requires AllValid(fs) && NoneCloses(fs) && (Parse(tail).0.Frame? ==> Parse(tail).0.op == OpClose)
    ensures Clean(Wire(fs) + tail) <==> Parse(tail).0.Frame? || BetweenParts(tail)
  {
    hide Data, Pongs, Parse, End, BetweenParts;
    FramesAreRead(fs, tail);
    StreamStep(tail);
    EndedExactly(tail);
  }

  /** The bytes are the first parts of a frame, and the next part is missing altogether. */
  predicate BetweenParts(s: seq<Byte>) {
    || s == []
    || (|s| == 2 && Extra(s[1] % 128) > 0)
    || (|s| >= 2 && |s| >= 2 + Extra(s[1] % 128) && HeadLength(s) <= MaxFrame && BodyMissing(s[1] >= 128, HeadLength(s), |s| - 2 - Extra(s[1] % 128)))
  }

  /** Of the mask and the payload so many bytes are there: none of the former, or all of it and none of the latter. */
  predicate BodyMissing(masked: bool, length: nat, have: nat) {
    if masked then have == 0 || (have == 4 && length > 0) else have == 0 && length > 0
  }

  /** The length of the payload that a frame begins by saying. */
  function HeadLength(s: seq<Byte>): nat
    requires |s| >= 2 && |s| >= 2 + Extra(s[1] % 128)
  {
    if Extra(s[1] % 128) == 0 then s[1] % 128 else Number(s[2..2 + Extra(s[1] % 128)])
  }

  lemma EndedExactly(s: seq<Byte>)
    ensures Parse(s).0.Ended? <==> BetweenParts(s)
  {
    hide Number, Masked;
  }

  // --- bytes on the wire

  function Bit(a: nat, k: nat): nat {
    if k == 0 then a % 2 else Bit(a / 2, k - 1)
  }

  /** Each bit of a masked byte is that of the payload unless the key has it. */
  lemma {:induction false} XorBit(a: nat, b: nat, k: nat)
    ensures Bit(Xor(a, b), k) == if Bit(b, k) == 1 then 1 - Bit(a, k) else Bit(a, k)
  {
    hide Xor;
    XorParts(a, b);
    if k == 0 {
      BitBelow(a, 0);
    } else {
      XorBit(a / 2, b / 2, k - 1);
    }
  }

  lemma {:induction false} BitBelow(a: nat, k: nat)
    ensures Bit(a, k) < 2
  {
    if k > 0 {
      BitBelow(a / 2, k - 1);
    }
  }

  /** The key goes over the payload again and again, bit by bit. */
  lemma MaskedBit(payload: seq<Byte>, mask: seq<Byte>, i: nat, k: nat)
    requires |mask| == 4 && i < |payload|
    ensures Bit(Masked(payload, mask)[i], k) == if Bit(mask[i % 4], k) == 1 then 1 - Bit(payload[i], k) else Bit(payload[i], k)
  {
    XorBit(payload[i], mask[i % 4], k);
  }

  /** Section 5.2: the length is one byte below 126; 126 and two bytes, the higher first; or 127 and eight. */
  lemma LengthForms(n: nat)
    requires n <= MaxFrame
    ensures n < 126 ==> Length(n) == [n]
    ensures 126 <= n < 0x1_0000 ==> Length(n) == [126, n / 0x100, n % 0x100]
    ensures 0x1_0000 <= n ==>
              Length(n) == [127, 0, 0, 0, 0, n / 0x100_0000, n / 0x1_0000 % 0x100, n / 0x100 % 0x100, n % 0x100]
  {
    if 126 <= n < 0x1_0000 {
      BigEndianTwo(n);
    } else if n >= 0x1_0000 {
      BigEndianEight(n);
    }
  }

  lemma BigEndianStep(n: nat, width: nat)
    requires width > 0
    ensures BigEndian(n, width) == BigEndian(n / 256, width - 1) + [n % 256]
  {
  }

  lemma {:induction false} BigEndianTwo(n: nat)
    requires n < 0x1_0000
    ensures BigEndian(n, 2) == [n / 0x100, n % 0x100]
  {
    hide BigEndian;
    BigEndianStep(n, 2);
    BigEndianStep(n / 256, 1);
    BigEndianNone(n / 256 / 256);
  }

  lemma BigEndianNone(n: nat)
    ensures BigEndian(n, 0) == []
  {
  }

  lemma {:induction false} BigEndianZeros(width: nat)
    ensures BigEndian(0, width) == seq(width, i => 0)
  {
    if width > 0 {
      BigEndianZeros(width - 1);
    }
  }

  lemma {:induction false} BigEndianEight(n: nat)
    requires n <= MaxFrame
    ensures BigEndian(n, 8) == [0, 0, 0, 0, n / 0x100_0000, n / 0x1_0000 % 0x100, n / 0x100 % 0x100, n % 0x100]
  {
    hide BigEndian;
    var a, b, c := n / 0x100, n / 0x1_0000, n / 0x100_0000;
    assert a / 256 == b && b / 256 == c && c < 256;
    BigEndianStep(n, 8);
    BigEndianStep(a, 7);
    BigEndianStep(b, 6);
    BigEndianStep(c, 5);
    BigEndianZeros(4);
    assert BigEndian(0, 4) == [0, 0, 0, 0];
  }

  /** The frame with this opcode, as a server would send it: final, without a mask, and short. */
  lemma ShortFrame(op: Byte, payload: seq<Byte>, rest: seq<Byte>)
    requires op < 16 && |payload| < 126
    ensures Parse([0x80 + op, |payload|] + payload + rest) == (Frame(op, payload), rest)
    ensures Written(op, payload) == [0x80 + op, |payload|] + payload
  {
    hide Parse;
    assert [0x80 + op] + [|payload|] + payload == [0x80 + op, |payload|] + payload;
    WriteThenRead(op, payload, rest);
  }

  /** Sections 5.4 to 5.6: continuations, text and binary frames carry data, and nothing else does; 8 closes, 9 is answered
      with 10 and the same payload, and the rest is passed over. */
  lemma OpcodesMean(op: Byte, payload: seq<Byte>, rest: seq<Byte>)
    requires op < 16 && |payload| < 126
    ensures var s := [0x80 + op, |payload|] + payload + rest;
            && Data(s) == (if op <= 2 then payload + Data(rest) else if op == 8 then [] else Data(rest))
            && Pongs(s) == (if op == 9 then [0x8A, |payload|] + payload + Pongs(rest) else if op == 8 then [] else Pongs(rest))
            && (op == 8 ==> Clean(s))
  {
    hide Parse, Data, Pongs, End, Written;
    ShortFrame(op, payload, rest);
    ShortFrame(10, payload, rest);
    StreamStep([0x80 + op, |payload|] + payload + rest);
    assert [] + Data(rest) == Data(rest) && [] + Pongs(rest) == Pongs(rest);
  }
}
