/** What identifies a batch of tool calls (internal/loop/run_tools.go). */
module Fingerprints {
  import opened Messages
  import opened Decimals

  /** A text with its length before it. */
  function Sized(s: string): string {
    Decimal(|s|) + ":" + s + "|"
  }

  function Print(c: ToolCall): string {
    Sized(c.name) + Sized(c.arguments)
  }

  function Fingerprint(calls: seq<ToolCall>): string {
    if calls == [] then "" else Fingerprint(calls[..|calls| - 1]) + Print(calls[|calls| - 1])
  }

  method BatchFingerprint(calls: seq<ToolCall>) returns (b: string)
    ensures b == Fingerprint(calls)
  {
    b := "";
    for i := 0 to |calls|
      invariant b == Fingerprint(calls[..i])
    {
      assert calls[..i + 1][..i] == calls[..i];
      var c := calls[i];
      b := b + (Decimal(|c.name|) + ":" + c.name + "|" + (Decimal(|c.arguments|) + ":" + c.arguments + "|"));
    }
    assert calls[..|calls|] == calls;
  }

  /** Call by call the same name and the same text of arguments; the ids may differ. */
  predicate SameBatch(a: seq<ToolCall>, b: seq<ToolCall>) {
    |a| == |b| && forall i :: 0 <= i < |a| ==> a[i].name == b[i].name && a[i].arguments == b[i].arguments
  }

  /** How all = Sized(s) + x is made up. */
  predicate MadeOf(all: string, s: string, x: string) {
    var d := |Decimal(|s|)|;
    && |all| == d + 2 + |s| + |x|
    && all[..d] == Decimal(|s|) && all[d] == ':'
    && all[d + 1..d + 1 + |s|] == s && all[d + 2 + |s|..] == x
  }

  lemma SizedMade(s: string, x: string)
    ensures MadeOf(Sized(s) + x, s, x)
  {
  }

  lemma DigitsEnd(all: string, s: string, x: string, t: string, y: string)
    requires MadeOf(all, s, x) && MadeOf(all, t, y)
    ensures |Decimal(|s|)| <= |Decimal(|t|)|
  {
    var d, e := Decimal(|s|), Decimal(|t|);
    assert forall i :: 0 <= i < |d| ==> all[i] == all[..|d|][i];
    assert IsDigit(':') ==> false;
    assert all[|e|] == ':';
  }

  /** A sized text is told from whatever follows it. */
  lemma SizedSplits(s: string, t: string, x: string, y: string)
    requires Sized(s) + x == Sized(t) + y
    ensures s == t && x == y
  {
    hide Sized, Decimal;
    var all := Sized(s) + x;
    SizedMade(s, x);
    SizedMade(t, y);
    DigitsEnd(all, s, x, t, y);
    DigitsEnd(all, t, y, s, x);
    DecimalTells(|s|);
    DecimalTells(|t|);
  }

  lemma PrintSplits(c: ToolCall, d: ToolCall, x: string, y: string)
    requires Print(c) + x == Print(d) + y
    ensures c.name == d.name && c.arguments == d.arguments && x == y
  {
    hide Sized;
    assert Print(c) + x == Sized(c.name) + (Sized(c.arguments) + x);
    assert Print(d) + y == Sized(d.name) + (Sized(d.arguments) + y);
    SizedSplits(c.name, d.name, Sized(c.arguments) + x, Sized(d.arguments) + y);
    SizedSplits(c.arguments, d.arguments, x, y);
  }

  lemma FingerprintSnoc(calls: seq<ToolCall>, c: ToolCall)
    ensures Fingerprint(calls + [c]) == Fingerprint(calls) + Print(c)
  {
    assert (calls + [c])[..|calls|] == calls;
  }

  lemma {:induction false} FingerprintFront(calls: seq<ToolCall>)
    requires calls != []
    ensures Fingerprint(calls) == Print(calls[0]) + Fingerprint(calls[1..])
  {
    hide Fingerprint, Print;
    EmptyPrint([]);
    if |calls| == 1 {
      FingerprintSnoc([], calls[0]);
      assert calls == [] + [calls[0]] && calls[1..] == [];
    } else {
      var init, last := calls[..|calls| - 1], calls[|calls| - 1];
      FingerprintFront(init);
      assert calls == init + [last] && calls[1..] == init[1..] + [last];
      FingerprintSnoc(init, last);
      FingerprintSnoc(init[1..], last);
      assert Print(init[0]) + Fingerprint(init[1..]) + Print(last) == Print(init[0]) + (Fingerprint(init[1..]) + Print(last));
    }
  }

  lemma PrintNotEmpty(c: ToolCall)
    ensures Print(c) != ""
  {
  }

  /** Two batches have the same fingerprint exactly when they make the same calls in the same order. */
  lemma {:induction false} FingerprintTells(a: seq<ToolCall>, b: seq<ToolCall>)
    ensures Fingerprint(a) == Fingerprint(b) <==> SameBatch(a, b)
    decreases |a|
  {
    hide Fingerprint, Print;
    if a == [] || b == [] {
      EmptyPrint(a);
      EmptyPrint(b);
    } else {
      FingerprintFront(a);
      FingerprintFront(b);
      FingerprintTells(a[1..], b[1..]);
      if Fingerprint(a) == Fingerprint(b) {
        PrintSplits(a[0], b[0], Fingerprint(a[1..]), Fingerprint(b[1..]));
      }
      if SameBatch(a, b) {
        SamePrint(a[0], b[0]);
      }
      SameFront(a, b);
    }
  }

  lemma EmptyPrint(a: seq<ToolCall>)
    ensures Fingerprint(a) == "" <==> a == []
  {
    if a != [] {
      PrintNotEmpty(a[|a| - 1]);
    }
  }

  lemma SamePrint(c: ToolCall, d: ToolCall)
    requires c.name == d.name && c.arguments == d.arguments
    ensures Print(c) == Print(d)
  {
  }

  lemma SameFront(a: seq<ToolCall>, b: seq<ToolCall>)
    requires a != [] && b != []
    ensures SameBatch(a, b) <==> a[0].name == b[0].name && a[0].arguments == b[0].arguments && SameBatch(a[1..], b[1..])
  {
    if |a| == |b| {
      assert forall i :: 1 <= i < |a| ==> a[i] == a[1..][i - 1] && b[i] == b[1..][i - 1];
    }
  }
}
