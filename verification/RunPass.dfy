/** The passes of the turn loop, and the model calls they make (internal/loop/run_loop.go). */
module RunPasses {

  /** A pass asks again after an overflow, goes on to the next turn, or ends the run. */
  datatype Kind = Overflowed | Turned | Ended

  /** `calls` counts the model calls of the pass: its own, and a wrap-up call when there are two. */
  datatype Pass = Pass(kind: Kind, calls: nat)

  /** What a host configured: a cap on turns when positive, whether there are tools, and whether auto-compaction is on. */
  datatype Limits = Limits(maxTurns: int, tools: bool, compacts: bool)

  /** The turn the next pass belongs to. */
  function TurnOf(passes: seq<Pass>): nat {
    if passes == [] then 0 else TurnOf(passes[..|passes| - 1]) + if passes[|passes| - 1].kind.Turned? then 1 else 0
  }

  function Sum(passes: seq<Pass>): nat {
    if passes == [] then 0 else Sum(passes[..|passes| - 1]) + passes[|passes| - 1].calls
  }

  predicate More(l: Limits, turn: nat) {
    l.maxTurns <= 0 || turn < l.maxTurns - 1
  }

  predicate LastIs(passes: seq<Pass>, kind: Kind) {
    passes != [] && passes[|passes| - 1].kind == kind
  }

  /** What the loop's branches let a pass do: an overflow is retried once a turn and only with auto-compaction, another
      turn is taken only below the cap, and a wrap-up call is made only below the cap and with tools. */
  predicate Allowed(l: Limits, before: seq<Pass>, p: Pass) {
    var turn := TurnOf(before);
    && !LastIs(before, Ended) && (l.maxTurns > 0 ==> turn < l.maxTurns)
    && match p.kind
       case Overflowed => l.compacts && !LastIs(before, Overflowed) && p.calls <= 1
       case Turned => More(l, turn) && 1 <= p.calls <= (if l.tools then 2 else 1)
       case Ended => p.calls <= if l.tools && More(l, turn) then 2 else 1
  }

  predicate Legal(l: Limits, passes: seq<Pass>) {
    forall i :: 0 <= i < |passes| ==> Allowed(l, passes[..i], passes[i])
  }

  lemma LegalMore(l: Limits, passes: seq<Pass>, p: Pass)
    requires Legal(l, passes) && Allowed(l, passes, p)
    ensures Legal(l, passes + [p])
    ensures TurnOf(passes + [p]) == TurnOf(passes) + if p.kind.Turned? then 1 else 0
    ensures Sum(passes + [p]) == Sum(passes) + p.calls
  {
    var more := passes + [p];
    assert more[..|passes|] == passes;
    forall i | 0 <= i < |more| ensures Allowed(l, more[..i], more[i]) {
      assert more[..i] == passes[..i];
      assert passes[..|passes|] == passes;
    }
  }

  lemma LegalFront(l: Limits, passes: seq<Pass>)
    requires Legal(l, passes) && passes != []
    ensures Legal(l, passes[..|passes| - 1]) && Allowed(l, passes[..|passes| - 1], passes[|passes| - 1])
  {
    var init := passes[..|passes| - 1];
    forall i | 0 <= i < |init| ensures Allowed(l, init[..i], init[i]) {
      assert init[..i] == passes[..i];
    }
  }

  function Bit(b: bool): nat {
    if b then 1 else 0
  }

  /** The calls and the passes so far, against the turn that is reached. */
  predicate Within(l: Limits, passes: seq<Pass>) {
    var turn, over := TurnOf(passes), Bit(LastIs(passes, Ended));
    && turn + over <= l.maxTurns
    && |passes| <= 2 * turn + Bit(LastIs(passes, Overflowed)) + 2 * over
    && Sum(passes) <= (1 + Bit(l.compacts)) * (turn + over) + Bit(LastIs(passes, Overflowed))
         + (if l.tools then (if turn + over < l.maxTurns then turn + over else l.maxTurns - 1) else 0)
  }

  lemma {:induction false} LegalWithin(l: Limits, passes: seq<Pass>)
    requires Legal(l, passes) && l.maxTurns > 0
    ensures Within(l, passes)
  {
    if passes != [] {
      LegalFront(l, passes);
      LegalWithin(l, passes[..|passes| - 1]);
    }
  }

  /** Under a cap of N, 2N passes are enough, and they make at most 3N - 1 calls; at most N when auto-compaction is off
      and there are no tools, or only one turn. */
  lemma PassBounds(l: Limits, passes: seq<Pass>)
    requires Legal(l, passes) && l.maxTurns > 0
    ensures |passes| <= 2 * l.maxTurns && (|passes| == 2 * l.maxTurns ==> LastIs(passes, Ended))
    ensures Sum(passes) <= 3 * l.maxTurns - 1
    ensures !l.compacts && (l.maxTurns == 1 || !l.tools) ==> Sum(passes) <= l.maxTurns
  {
    LegalWithin(l, passes);
  }

  // --- how the calls add up

  /** The calls that overflowed and were retried. */
  function Overflows(passes: seq<Pass>): nat {
    if passes == [] then 0
    else Overflows(passes[..|passes| - 1]) + if passes[|passes| - 1].kind.Overflowed? then passes[|passes| - 1].calls else 0
  }

  /** The wrap-up calls. */
  function WrapUps(passes: seq<Pass>): nat {
    if passes == [] then 0 else WrapUps(passes[..|passes| - 1]) + Bit(passes[|passes| - 1].calls == 2)
  }

  /** The turns whose own call was made, retries aside. */
  function Firsts(passes: seq<Pass>): nat {
    if passes == [] then 0
    else Firsts(passes[..|passes| - 1]) + Bit(!passes[|passes| - 1].kind.Overflowed? && passes[|passes| - 1].calls > 0)
  }

  /** The calls are exactly one for each of at most N turns, and those that overflowed, and those that wrapped up; so the
      cap holds for the calls too exactly when the latter two fill no more than the turns that made none. */
  lemma {:induction false} CallsAddUp(l: Limits, passes: seq<Pass>)
    requires Legal(l, passes)
    ensures Sum(passes) == Firsts(passes) + Overflows(passes) + WrapUps(passes)
    ensures Firsts(passes) <= TurnOf(passes) + Bit(LastIs(passes, Ended))
    ensures l.maxTurns > 0 ==> Firsts(passes) <= l.maxTurns
    ensures Sum(passes) <= l.maxTurns <==> Overflows(passes) + WrapUps(passes) <= l.maxTurns - Firsts(passes)
  {
    if passes != [] {
      LegalFront(l, passes);
      CallsAddUp(l, passes[..|passes| - 1]);
      if l.maxTurns > 0 {
        LegalWithin(l, passes);
      }
    }
  }

  // --- when the cap on turns is one on calls

  /** n turns of one call each, before which other passes were made. */
  function Plain(before: seq<Pass>, n: nat): seq<Pass> {
    if n == 0 then before else Plain(before, n - 1) + [Pass(Turned, 1)]
  }

  lemma {:induction false} PlainLegal(l: Limits, before: seq<Pass>, n: nat)
    requires Legal(l, before) && !LastIs(before, Ended) && l.maxTurns > 0 && TurnOf(before) + n < l.maxTurns
    ensures Legal(l, Plain(before, n)) && !LastIs(Plain(before, n), Ended)
    ensures TurnOf(Plain(before, n)) == TurnOf(before) + n && Sum(Plain(before, n)) == Sum(before) + n
  {
    hide Legal, Sum, TurnOf;
    if n > 0 {
      PlainLegal(l, before, n - 1);
      LegalMore(l, Plain(before, n - 1), Pass(Turned, 1));
    }
  }

  lemma FirstLegal(l: Limits, p: Pass)
    requires Allowed(l, [], p)
    ensures Legal(l, [p]) && TurnOf([p]) == Bit(p.kind.Turned?) && Sum([p]) == p.calls && LastIs([p], p.kind)
  {
    NoneLegal(l);
    hide Legal, Sum, TurnOf, Allowed;
    LegalMore(l, [], p);
    assert [] + [p] == [p];
  }

  lemma NoneLegal(l: Limits)
    ensures Legal(l, []) && TurnOf([]) == 0 && Sum([]) == 0
  {
  }

  /** A run of the loop that makes one call more than the cap: it overflows once, or wraps up once, and then takes every
      turn it may. */
  function OneTooMany(l: Limits): seq<Pass>
    requires l.maxTurns > 0
  {
    (if l.compacts then Plain([Pass(Overflowed, 1)], l.maxTurns - 1)
     else if l.maxTurns > 1 then Plain([Pass(Turned, 2)], l.maxTurns - 2)
     else [])
    + [Pass(Ended, 1)]
  }

  lemma OneTooManyLegal(l: Limits)
    requires l.maxTurns > 0 && (l.compacts || (l.maxTurns > 1 && l.tools))
    ensures Legal(l, OneTooMany(l)) && Sum(OneTooMany(l)) == l.maxTurns + 1
  {
    var first := if l.compacts then Pass(Overflowed, 1) else Pass(Turned, 2);
    var n: nat := if l.compacts then l.maxTurns - 1 else l.maxTurns - 2;
    assert TurnOf([]) == 0;
    FirstLegal(l, first);
    PlainLegal(l, [first], n);
    LegalMore(l, Plain([first], n), Pass(Ended, 1));
  }

  /** The cap on turns caps the calls of every run exactly when auto-compaction is off and there are no tools, or only
      one turn. */
  lemma CapHoldsExactly(l: Limits)
    requires l.maxTurns > 0
    ensures (forall passes :: Legal(l, passes) ==> Sum(passes) <= l.maxTurns) <==> !l.compacts && (l.maxTurns == 1 || !l.tools)
  {
    if !l.compacts && (l.maxTurns == 1 || !l.tools) {
      forall passes | Legal(l, passes) ensures Sum(passes) <= l.maxTurns {
        PassBounds(l, passes);
      }
    } else {
      OneTooManyLegal(l);
      assert Legal(l, OneTooMany(l));
    }
  }

  /** n turns, each of which overflows once and wraps up. */
  function Busy(n: nat): seq<Pass> {
    if n == 0 then [] else Busy(n - 1) + [Pass(Overflowed, 1)] + [Pass(Turned, 2)]
  }

  lemma {:induction false} BusyLegal(l: Limits, n: nat)
    requires l.maxTurns > 0 && l.compacts && l.tools && n < l.maxTurns
    ensures Legal(l, Busy(n)) && TurnOf(Busy(n)) == n && Sum(Busy(n)) == 3 * n
    ensures !LastIs(Busy(n), Ended) && !LastIs(Busy(n), Overflowed)
  {
    hide Legal, Sum, TurnOf;
    if n == 0 {
      NoneLegal(l);
    } else {
      BusyLegal(l, n - 1);
      LegalMore(l, Busy(n - 1), Pass(Overflowed, 1));
      LegalMore(l, Busy(n - 1) + [Pass(Overflowed, 1)], Pass(Turned, 2));
    }
  }

  /** As many turns as there may be like that, and a last one that overflows once. */
  function BusyRun(l: Limits): seq<Pass>
    requires l.maxTurns > 0
  {
    Busy(l.maxTurns - 1) + [Pass(Overflowed, 1)] + [Pass(Ended, 1)]
  }

  lemma BusyEnds(l: Limits)
    requires l.maxTurns > 0 && l.compacts && l.tools
    ensures Legal(l, BusyRun(l)) && Sum(BusyRun(l)) == 3 * l.maxTurns - 1 && LastIs(BusyRun(l), Ended)
  {
    hide Legal, Sum, TurnOf;
    var n := l.maxTurns - 1;
    BusyLegal(l, n);
    LegalMore(l, Busy(n), Pass(Overflowed, 1));
    LegalMore(l, Busy(n) + [Pass(Overflowed, 1)], Pass(Ended, 1));
  }

  /** 3N - 1 calls are as many as passes may make. */
  lemma BoundIsReached(l: Limits)
    requires l.maxTurns > 0 && l.compacts && l.tools
    ensures exists passes :: Legal(l, passes) && Sum(passes) == 3 * l.maxTurns - 1
  {
    BusyEnds(l);
  }
}
