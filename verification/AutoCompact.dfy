/** Summarizing a transcript that may be too large for one call (internal/loop/autocompact.go, internal/loop/compact.go). */
module AutoCompact {
  import opened Wrappers
  import opened Messages
  import Convert
  import Nodes

  // --- where to cut

  function Abs(n: int): nat {
    if n < 0 then -n else n
  }

  /** How far position i is from the middle of n messages. */
  function Off(n: nat, i: nat): nat {
    Abs(i - n / 2)
  }

  predicate UserAt(msgs: seq<Message>, i: nat) {
    1 <= i < |msgs| && msgs[i].role.User?
  }

  /** cut is the user position nearest the middle among the first n, the first of them on a tie; 0 when there is none. */
  predicate Nearest(msgs: seq<Message>, n: nat, cut: nat)
    requires n <= |msgs|
  {
    && (cut == 0 ==> forall i :: 0 <= i < n ==> !UserAt(msgs, i))
    && (cut > 0 ==> cut < n && UserAt(msgs, cut))
    && (cut > 0 ==> forall i :: 0 <= i < n && UserAt(msgs, i) ==> Off(|msgs|, cut) <= Off(|msgs|, i))
    && (cut > 0 ==> forall i :: 0 <= i < cut && UserAt(msgs, i) ==> Off(|msgs|, cut) < Off(|msgs|, i))
  }

  function SplitOf(msgs: seq<Message>, n: nat): (cut: nat)
    requires n <= |msgs|
    ensures Nearest(msgs, n, cut)
  {
    if n == 0 then 0
    else
      var best := SplitOf(msgs, n - 1);
      if UserAt(msgs, n - 1) && (best == 0 || Off(|msgs|, n - 1) < Off(|msgs|, best)) then n - 1 else best
  }

  method SplitPoint(msgs: seq<Message>) returns (best: nat)
    ensures best == SplitOf(msgs, |msgs|) && Nearest(msgs, |msgs|, best)
  {
    best := 0;
    var i := 1;
    while i < |msgs|
      invariant 1 <= i && (i <= |msgs| || msgs == [])
      invariant best == if i <= |msgs| then SplitOf(msgs, i) else 0
    {
      if msgs[i].role.User? {
        if best == 0 || Off(|msgs|, i) < Off(|msgs|, best) {
          best := i;
        }
      }
      i := i + 1;
    }
  }

  // --- a call and its results stay on one side

  predicate Calls(m: Message, id: string) {
    exists k :: 0 <= k < |m.toolCalls| && m.toolCalls[k].id == id
  }

  predicate AnswersCall(m: Message, id: string) {
    m.role.Tool? && m.toolCallId == id
  }

  /** From i on up to j no one but the model and its tools speaks. */
  predicate OneStretch(msgs: seq<Message>, i: nat, j: nat)
    requires j < |msgs|
  {
    forall k :: i < k <= j ==> !msgs[k].role.User?
  }

  predicate CallKept(msgs: seq<Message>, i: nat, id: string) {
    exists j :: i < j < |msgs| && AnswersCall(msgs[j], id) && OneStretch(msgs, i, j)
  }

  predicate ResultKept(msgs: seq<Message>, j: nat)
    requires j < |msgs|
  {
    exists i :: 0 <= i < j && Calls(msgs[i], msgs[j].toolCallId) && OneStretch(msgs, i, j)
  }

  /** Every call has a result, and every result its call, before the next user message. */
  predicate Paired(msgs: seq<Message>) {
    && (forall i, k :: 0 <= i < |msgs| && 0 <= k < |msgs[i].toolCalls| ==> CallKept(msgs, i, msgs[i].toolCalls[k].id))
    && (forall j :: 0 <= j < |msgs| && msgs[j].role.Tool? ==> ResultKept(msgs, j))
  }

  lemma OlderCall(msgs: seq<Message>, cut: nat, i: nat, id: string)
    requires UserAt(msgs, cut) && i < cut && CallKept(msgs, i, id)
    ensures CallKept(msgs[..cut], i, id)
  {
    var older := msgs[..cut];
    var j :| i < j < |msgs| && AnswersCall(msgs[j], id) && OneStretch(msgs, i, j);
    assert j < cut;
    assert OneStretch(older, i, j) && AnswersCall(older[j], id);
  }

  lemma OlderResult(msgs: seq<Message>, cut: nat, j: nat)
    requires UserAt(msgs, cut) && j < cut && ResultKept(msgs, j)
    ensures ResultKept(msgs[..cut], j)
  {
    var older := msgs[..cut];
    var i :| 0 <= i < j && Calls(msgs[i], msgs[j].toolCallId) && OneStretch(msgs, i, j);
    assert Calls(older[i], older[j].toolCallId) && OneStretch(older, i, j);
  }

  lemma OlderPaired(msgs: seq<Message>, cut: nat)
    requires Paired(msgs) && UserAt(msgs, cut)
    ensures Paired(msgs[..cut])
  {
    hide CallKept, ResultKept;
    var older := msgs[..cut];
    forall i, k | 0 <= i < |older| && 0 <= k < |older[i].toolCalls| ensures CallKept(older, i, older[i].toolCalls[k].id) {
      OlderCall(msgs, cut, i, msgs[i].toolCalls[k].id);
    }
    forall j | 0 <= j < |older| && older[j].role.Tool? ensures ResultKept(older, j) {
      OlderResult(msgs, cut, j);
    }
  }

  lemma StretchBehind(msgs: seq<Message>, cut: nat, head: Message, i: nat, j: nat)
    requires cut <= i <= j < |msgs| && OneStretch(msgs, i, j)
    ensures OneStretch([head] + msgs[cut..], i - cut + 1, j - cut + 1)
  {
    var out := [head] + msgs[cut..];
    assert forall n :: i - cut + 1 < n <= j - cut + 1 ==> out[n] == msgs[n - 1 + cut];
  }

  lemma CallBehind(msgs: seq<Message>, cut: nat, head: Message, at: nat, id: string)
    requires cut <= at < |msgs| && CallKept(msgs, at, id)
    ensures CallKept([head] + msgs[cut..], at - cut + 1, id)
  {
    hide OneStretch;
    var out := [head] + msgs[cut..];
    var j: nat :| at < j < |msgs| && AnswersCall(msgs[j], id) && OneStretch(msgs, at, j);
    StretchBehind(msgs, cut, head, at, j);
    assert AnswersCall(out[j - cut + 1], id);
  }

  lemma ResultBehind(msgs: seq<Message>, cut: nat, head: Message, at: nat)
    requires UserAt(msgs, cut) && cut <= at < |msgs| && msgs[at].role.Tool? && ResultKept(msgs, at)
    ensures ResultKept([head] + msgs[cut..], at - cut + 1)
  {
    var out := [head] + msgs[cut..];
    var i: nat :| 0 <= i < at && Calls(msgs[i], msgs[at].toolCallId) && OneStretch(msgs, i, at);
    assert i >= cut;
    StretchBehind(msgs, cut, head, i, at);
    assert out[i - cut + 1] == msgs[i] && out[at - cut + 1] == msgs[at];
  }

  /** The rest, behind a message that neither calls nor answers. */
  lemma RebuiltPaired(msgs: seq<Message>, cut: nat, head: Message)
    requires Paired(msgs) && UserAt(msgs, cut) && head.toolCalls == [] && !head.role.Tool?
    ensures Paired([head] + msgs[cut..])
  {
    hide CallKept, ResultKept;
    var out := [head] + msgs[cut..];
    forall i, k | 0 <= i < |out| && 0 <= k < |out[i].toolCalls| ensures CallKept(out, i, out[i].toolCalls[k].id) {
      var at := i - 1 + cut;
      assert out[i] == msgs[at];
      CallBehind(msgs, cut, head, at, msgs[at].toolCalls[k].id);
    }
    forall j | 0 <= j < |out| && out[j].role.Tool? ensures ResultKept(out, j) {
      assert out[j] == msgs[j - 1 + cut];
      ResultBehind(msgs, cut, head, j - 1 + cut);
    }
  }

  // --- summarizing in parts

  datatype Reply = Summary(text: string) | TooLarge | Failed

  /** What the model says to its k-th summary request. */
  type Model = (nat, seq<Message>) -> Reply

  /** The message a summary stands in as. */
  function Handoff(summary: string): Message {
    Plain(User, "", Nodes.CompactionKind, Convert.HandoffPrefix + summary)
  }

  /** One summary, standing in for the first cut messages. */
  function Rebuilt(summary: string, msgs: seq<Message>, cut: nat): seq<Message>
    requires cut <= |msgs|
  {
    [Handoff(summary)] + msgs[cut..]
  }

  /** What a request holds in place of msgs: msgs itself, or a summary and then msgs from a user message on, word for word. */
  predicate StandsIn(msgs: seq<Message>, now: seq<Message>) {
    now == msgs || exists c: nat :: UserAt(msgs, c) && |now| == 1 + |msgs| - c && now[1..] == msgs[c..] && IsHandoff(now[0])
  }

  predicate IsHandoff(m: Message) {
    m == Plain(User, "", Nodes.CompactionKind, m.content) && Convert.HandoffPrefix <= m.content
  }

  lemma StandsInMore(msgs: seq<Message>, now: seq<Message>, cut: nat, summary: string)
    requires StandsIn(msgs, now) && UserAt(now, cut)
    ensures StandsIn(msgs, Rebuilt(summary, now, cut))
  {
    var out := Rebuilt(summary, now, cut);
    assert out[1..] == now[cut..];
    if now == msgs {
      assert UserAt(msgs, cut);
    } else {
      var c: nat :| UserAt(msgs, c) && |now| == 1 + |msgs| - c && now[1..] == msgs[c..] && IsHandoff(now[0]);
      var d := c + cut - 1;
      assert now[cut..] == now[1..][cut - 1..] == msgs[c..][cut - 1..] == msgs[d..];
      assert now[cut] == now[1..][cut - 1] == msgs[d];
      assert UserAt(msgs, d);
    }
  }

  /** A list that stands in for a paired one is paired. */
  lemma StandsInPaired(msgs: seq<Message>, now: seq<Message>)
    requires Paired(msgs) && StandsIn(msgs, now)
    ensures Paired(now)
  {
    hide Paired;
    if now != msgs {
      var c: nat :| UserAt(msgs, c) && |now| == 1 + |msgs| - c && now[1..] == msgs[c..] && IsHandoff(now[0]);
      RebuiltPaired(msgs, c, now[0]);
      assert now == [now[0]] + msgs[c..];
    }
  }

  datatype Fit = Fits(summary: string) | Unfit

  /** The same search as a function: none when fuel runs out. */
  function Search(model: Model, k: nat, msgs: seq<Message>, fuel: nat): Option<(Fit, nat)>
    decreases fuel
  {
    if fuel == 0 then None
    else
      var reply := model(k, msgs);
      var cut := SplitOf(msgs, |msgs|);
      if reply.Summary? then Some((Fits(reply.text), k + 1))
      else if !reply.TooLarge? || cut == 0 then Some((Unfit, k + 1))
      else
        match Search(model, k + 1, msgs[..cut], fuel - 1)
        case None => None
        case Some((older, k')) =>
          if older.Unfit? then Some((Unfit, k'))
          else Search(model, k', Rebuilt(older.summary, msgs, cut), fuel - 1)
  }

  lemma {:induction false} MoreFuel(model: Model, k: nat, msgs: seq<Message>, fuel: nat, more: nat)
    requires Search(model, k, msgs, fuel).Some? && fuel <= more
    ensures Search(model, k, msgs, more) == Search(model, k, msgs, fuel)
    decreases fuel
  {
    hide Rebuilt, Nearest;
    var reply, cut := model(k, msgs), SplitOf(msgs, |msgs|);
    CutBounds(msgs, cut);
    if reply.TooLarge? && cut > 0 {
      MoreFuel(model, k + 1, msgs[..cut], fuel - 1, more - 1);
      var older := Search(model, k + 1, msgs[..cut], fuel - 1).value;
      if older.0.Fits? {
        MoreFuel(model, older.1, Rebuilt(older.0.summary, msgs, cut), fuel - 1, more - 1);
      }
    }
  }

  ghost predicate Finds(model: Model, k: nat, msgs: seq<Message>, r: Fit, k': nat) {
    exists fuel: nat :: Search(model, k, msgs, fuel) == Some((r, k'))
  }

  lemma FindsOnce(model: Model, k: nat, msgs: seq<Message>, r: Fit, k': nat, fuel: nat)
    requires Finds(model, k, msgs, r, k') && Search(model, k, msgs, fuel).Some?
    ensures Search(model, k, msgs, fuel) == Some((r, k'))
  {
    var f: nat :| Search(model, k, msgs, f) == Some((r, k'));
    MoreFuel(model, k, msgs, f, if f < fuel then fuel else f);
    MoreFuel(model, k, msgs, fuel, if f < fuel then fuel else f);
  }

  // --- when it ends

  ghost predicate Ends(model: Model, k: nat, msgs: seq<Message>) {
    exists fuel: nat :: Search(model, k, msgs, fuel).Some?
  }

  /** msgs with its first message summarized alone. */
  function FirstBriefed(model: Model, k: nat, msgs: seq<Message>): seq<Message>
    requires msgs != [] && model(k, [msgs[0]]).Summary?
  {
    Rebuilt(model(k, [msgs[0]]).text, msgs, 1)
  }

  /** With the first message summarized again and again, it takes at most n requests until the whole is no longer too
      large, or the first message alone gets no summary. */
  predicate BreaksWithin(model: Model, k: nat, msgs: seq<Message>, n: nat)
    decreases n
  {
    && n > 0 && msgs != []
    && (model(k, msgs).TooLarge? && model(k + 1, [msgs[0]]).Summary? ==> BreaksWithin(model, k + 2, FirstBriefed(model, k + 1, msgs), n - 1))
  }

  ghost predicate Breaks(model: Model, k: nat, msgs: seq<Message>) {
    exists n: nat :: BreaksWithin(model, k, msgs, n)
  }

  /** Wherever the cut takes one message only, that breaks off. */
  ghost predicate Settles(model: Model) {
    forall k: nat, msgs :: SplitOf(msgs, |msgs|) == 1 ==> Breaks(model, k, msgs)
  }

  /** The first message has no part in where the cut is. */
  lemma {:induction false} SplitSame(msgs: seq<Message>, out: seq<Message>, n: nat)
    requires n <= |msgs| == |out| && forall i :: 1 <= i < |msgs| ==> out[i] == msgs[i]
    ensures SplitOf(out, n) == SplitOf(msgs, n)
  {
    if n > 0 {
      SplitSame(msgs, out, n - 1);
    }
  }

  lemma LoneSearch(model: Model, k: nat, m: Message, fuel: nat)
    requires fuel > 0
    ensures Search(model, k, [m], fuel) == Some((if model(k, [m]).Summary? then Fits(model(k, [m]).text) else Unfit, k + 1))
  {
    assert SplitOf([m], 0) == 0 && SplitOf([m], 1) == 0;
  }

  /** One round where the cut takes one message only. */
  lemma OneRound(model: Model, k: nat, msgs: seq<Message>, fuel: nat)
    requires fuel > 1 && SplitOf(msgs, |msgs|) == 1
    ensures |msgs| > 1
    ensures model(k, msgs).TooLarge? && model(k + 1, [msgs[0]]).Summary? ==>
              && Search(model, k, msgs, fuel) == Search(model, k + 2, FirstBriefed(model, k + 1, msgs), fuel - 1)
              && SplitOf(FirstBriefed(model, k + 1, msgs), |msgs|) == 1 && |FirstBriefed(model, k + 1, msgs)| == |msgs|
    ensures !(model(k, msgs).TooLarge? && model(k + 1, [msgs[0]]).Summary?) ==> Search(model, k, msgs, fuel).Some?
  {
    CutBounds(msgs, 1);
    assert msgs[..1] == [msgs[0]];
    LoneSearch(model, k + 1, msgs[0], fuel - 1);
    if model(k, msgs).TooLarge? && model(k + 1, [msgs[0]]).Summary? {
      SplitSame(msgs, FirstBriefed(model, k + 1, msgs), |msgs|);
    }
  }

  lemma {:induction false} BreakEnds(model: Model, k: nat, msgs: seq<Message>, n: nat)
    requires SplitOf(msgs, |msgs|) == 1 && BreaksWithin(model, k, msgs, n)
    ensures Search(model, k, msgs, n + 1).Some?
    decreases n
  {
    hide Search, SplitOf, Rebuilt;
    OneRound(model, k, msgs, n + 1);
    if model(k, msgs).TooLarge? && model(k + 1, [msgs[0]]).Summary? {
      BreakEnds(model, k + 2, FirstBriefed(model, k + 1, msgs), n - 1);
    }
  }

  lemma {:induction false} EndBreaks(model: Model, k: nat, msgs: seq<Message>, fuel: nat)
    requires SplitOf(msgs, |msgs|) == 1 && Search(model, k, msgs, fuel).Some?
    ensures BreaksWithin(model, k, msgs, fuel)
    decreases fuel
  {
    hide SplitOf, Rebuilt;
    CutBounds(msgs, 1);
    if model(k, msgs).TooLarge? && model(k + 1, [msgs[0]]).Summary? {
      assert msgs[..1] == [msgs[0]];
      if fuel > 1 {
        OneRound(model, k, msgs, fuel);
        EndBreaks(model, k + 2, FirstBriefed(model, k + 1, msgs), fuel - 1);
      }
    }
  }

  /** Where the cut takes one message only, the search ends exactly when that breaks off. */
  lemma OneMessageEndsExactly(model: Model, k: nat, msgs: seq<Message>)
    requires SplitOf(msgs, |msgs|) == 1
    ensures Ends(model, k, msgs) <==> Breaks(model, k, msgs)
  {
    hide Search, SplitOf, BreaksWithin;
    if Ends(model, k, msgs) {
      var fuel: nat :| Search(model, k, msgs, fuel).Some?;
      EndBreaks(model, k, msgs, fuel);
    }
    if Breaks(model, k, msgs) {
      var n: nat :| BreaksWithin(model, k, msgs, n);
      BreakEnds(model, k, msgs, n);
    }
  }

  lemma RebuiltLength(summary: string, msgs: seq<Message>, cut: nat)
    requires cut <= |msgs|
    ensures |Rebuilt(summary, msgs, cut)| == 1 + |msgs| - cut
  {
  }

  /** Wherever this search comes to a list whose cut takes one message only, that breaks off. */
  ghost predicate BreaksOff(model: Model, k: nat, msgs: seq<Message>)
    decreases |msgs|
  {
    var cut := SplitOf(msgs, |msgs|);
    if !model(k, msgs).TooLarge? || cut == 0 then true
    else if cut == 1 then Breaks(model, k, msgs)
    else
      && BreaksOff(model, k + 1, msgs[..cut])
      && forall s, k' :: Finds(model, k + 1, msgs[..cut], Fits(s), k') ==> BreaksOff(model, k', Rebuilt(s, msgs, cut))
  }

  /** A cut that takes more than one message: the search ends when it ends on the older part, and on what a summary of
      that leaves. */
  lemma CutEnds(model: Model, k: nat, msgs: seq<Message>, cut: nat)
    requires model(k, msgs).TooLarge? && cut == SplitOf(msgs, |msgs|) && 0 < cut < |msgs|
    ensures Ends(model, k, msgs) <==>
              && Ends(model, k + 1, msgs[..cut])
              && forall s, k' :: Finds(model, k + 1, msgs[..cut], Fits(s), k') ==> Ends(model, k', Rebuilt(s, msgs, cut))
  {
    hide Rebuilt, Nearest, SplitOf;
    var older := msgs[..cut];
    if Ends(model, k, msgs) {
      var fuel: nat :| Search(model, k, msgs, fuel).Some?;
      assert Search(model, k + 1, older, fuel - 1).Some?;
      forall s, k' | Finds(model, k + 1, older, Fits(s), k') ensures Ends(model, k', Rebuilt(s, msgs, cut)) {
        FindsOnce(model, k + 1, older, Fits(s), k', fuel - 1);
        assert Search(model, k', Rebuilt(s, msgs, cut), fuel - 1).Some?;
      }
    }
    if && Ends(model, k + 1, older)
       && forall s, k' :: Finds(model, k + 1, older, Fits(s), k') ==> Ends(model, k', Rebuilt(s, msgs, cut))
    {
      var f: nat :| Search(model, k + 1, older, f).Some?;
      CutEndsBack(model, k, msgs, cut, f);
    }
  }

  lemma CutEndsBack(model: Model, k: nat, msgs: seq<Message>, cut: nat, f: nat)
    requires model(k, msgs).TooLarge? && cut == SplitOf(msgs, |msgs|) && 0 < cut < |msgs|
    requires Search(model, k + 1, msgs[..cut], f).Some?
    requires forall s, k' :: Finds(model, k + 1, msgs[..cut], Fits(s), k') ==> Ends(model, k', Rebuilt(s, msgs, cut))
    ensures Ends(model, k, msgs)
  {
    hide Rebuilt, Nearest, SplitOf;
    var (found, k') := Search(model, k + 1, msgs[..cut], f).value;
    if found.Unfit? {
      assert Search(model, k, msgs, f + 1).Some?;
    } else {
      var now := Rebuilt(found.summary, msgs, cut);
      assert found == Fits(found.summary);
      assert Finds(model, k + 1, msgs[..cut], Fits(found.summary), k');
      assert Ends(model, k', now);
      var g: nat :| Search(model, k', now, g).Some?;
      var fuel := if f < g then g else f;
      MoreFuel(model, k + 1, msgs[..cut], f, fuel);
      MoreFuel(model, k', now, g, fuel);
      assert Search(model, k, msgs, fuel + 1).Some?;
    }
  }

  /** The search ends on a transcript exactly when, wherever it comes to one message alone, that breaks off. */
  lemma {:induction false} EndsHere(model: Model, k: nat, msgs: seq<Message>)
    ensures Ends(model, k, msgs) <==> BreaksOff(model, k, msgs)
    decreases |msgs|
  {
    hide SplitOf, Rebuilt, Nearest, Search, Breaks, Finds;
    var cut := SplitOf(msgs, |msgs|);
    CutBounds(msgs, cut);
    if !model(k, msgs).TooLarge? || cut == 0 {
      EndsAtOnce(model, k, msgs);
    } else if cut == 1 {
      OneMessageEndsExactly(model, k, msgs);
    } else {
      CutEnds(model, k, msgs, cut);
      EndsHere(model, k + 1, msgs[..cut]);
      forall s, k' | Finds(model, k + 1, msgs[..cut], Fits(s), k')
        ensures Ends(model, k', Rebuilt(s, msgs, cut)) <==> BreaksOff(model, k', Rebuilt(s, msgs, cut))
      {
        RebuiltLength(s, msgs, cut);
        EndsHere(model, k', Rebuilt(s, msgs, cut));
      }
    }
  }

  lemma EndsAtOnce(model: Model, k: nat, msgs: seq<Message>)
    requires !model(k, msgs).TooLarge? || SplitOf(msgs, |msgs|) == 0
    ensures Ends(model, k, msgs)
  {
    assert Search(model, k, msgs, 1).Some?;
  }

  lemma {:induction false} SearchEnds(model: Model, k: nat, msgs: seq<Message>)
    requires Settles(model)
    ensures BreaksOff(model, k, msgs)
    decreases |msgs|
  {
    hide Rebuilt, Nearest, Search, Breaks, Finds;
    var cut := SplitOf(msgs, |msgs|);
    CutBounds(msgs, cut);
    if model(k, msgs).TooLarge? && cut > 1 {
      hide SplitOf;
      SearchEnds(model, k + 1, msgs[..cut]);
      forall s, k' | Finds(model, k + 1, msgs[..cut], Fits(s), k') ensures BreaksOff(model, k', Rebuilt(s, msgs, cut)) {
        RebuiltLength(s, msgs, cut);
        SearchEnds(model, k', Rebuilt(s, msgs, cut));
      }
    }
  }

  /** A model's searches all end exactly when, wherever the cut takes one message only, they break off there. */
  lemma EndsExactly(model: Model)
    ensures (forall k: nat, msgs :: Ends(model, k, msgs)) <==> Settles(model)
  {
    hide Ends, Breaks, SplitOf;
    if Settles(model) {
      forall k: nat, msgs ensures Ends(model, k, msgs) {
        SearchEnds(model, k, msgs);
        EndsHere(model, k, msgs);
      }
    }
    if forall k: nat, msgs :: Ends(model, k, msgs) {
      forall k: nat, msgs | SplitOf(msgs, |msgs|) == 1 ensures Breaks(model, k, msgs) {
        OneMessageEndsExactly(model, k, msgs);
      }
    }
  }

  /** While the whole stays too large, a summary of the first message alone weighs less than the message. */
  ghost predicate Lightens(model: Model, weight: Message -> nat) {
    forall k: nat, msgs :: SplitOf(msgs, |msgs|) == 1 && model(k, msgs).TooLarge? && model(k + 1, [msgs[0]]).Summary? ==>
      weight(Handoff(model(k + 1, [msgs[0]]).text)) < weight(msgs[0])
  }

  lemma {:induction false} LighterBreaks(model: Model, weight: Message -> nat, k: nat, msgs: seq<Message>)
    requires Lightens(model, weight) && SplitOf(msgs, |msgs|) == 1
    ensures msgs != [] && BreaksWithin(model, k, msgs, weight(msgs[0]) + 1)
    decreases weight(msgs[0])
  {
    hide SplitOf, Search;
    OneRound(model, k, msgs, 2);
    if model(k, msgs).TooLarge? && model(k + 1, [msgs[0]]).Summary? {
      var out := FirstBriefed(model, k + 1, msgs);
      LighterBreaks(model, weight, k + 2, out);
      BreaksLater(model, k + 2, out, weight(out[0]) + 1, weight(msgs[0]));
    }
  }

  lemma {:induction false} BreaksLater(model: Model, k: nat, msgs: seq<Message>, n: nat, more: nat)
    requires BreaksWithin(model, k, msgs, n) && n <= more
    ensures BreaksWithin(model, k, msgs, more)
    decreases n
  {
    if model(k, msgs).TooLarge? && model(k + 1, [msgs[0]]).Summary? {
      BreaksLater(model, k + 2, FirstBriefed(model, k + 1, msgs), n - 1, more - 1);
    }
  }

  function FirstWeight(msgs: seq<Message>, weight: Message -> nat): nat {
    if msgs == [] then 0 else weight(msgs[0])
  }

  /** The measure (length, weight of the first message) falls exactly when the cut takes more than one message, or the
      summary is lighter than the one message it replaces. */
  lemma ProgressExactly(msgs: seq<Message>, cut: nat, summary: string, weight: Message -> nat)
    requires 1 <= cut < |msgs|
    ensures var out := Rebuilt(summary, msgs, cut);
            (|out| < |msgs| || (|out| == |msgs| && FirstWeight(out, weight) < FirstWeight(msgs, weight)))
            <==> (cut > 1 || weight(Handoff(summary)) < weight(msgs[0]))
  {
  }

  /** It is enough that summaries get lighter there. */
  lemma LighterSettles(model: Model, weight: Message -> nat)
    requires Lightens(model, weight)
    ensures Settles(model)
  {
    hide SplitOf, BreaksWithin;
    forall k: nat, msgs | SplitOf(msgs, |msgs|) == 1 ensures Breaks(model, k, msgs) {
      LighterBreaks(model, weight, k, msgs);
    }
  }

  /** A model that summarizes every lone message, and finds a list too large until its first message is a summary. */
  function Brief(k: nat, msgs: seq<Message>): Reply {
    if |msgs| > 1 && msgs[0].kind != Nodes.CompactionKind then TooLarge else Summary("s")
  }

  lemma BriefSettles()
    ensures (forall k: nat, m :: Brief(k, [m]).Summary?) && Settles(Brief)
  {
    var weight := (m: Message) => if m.kind == Nodes.CompactionKind then 0 else 1;
    assert Lightens(Brief, weight);
    LighterSettles(Brief, weight);
  }

  predicate AllPaired(asked: seq<seq<Message>>) {
    forall i :: 0 <= i < |asked| ==> Paired(asked[i])
  }

  /** Some request that stands in for msgs was answered with the summary. */
  ghost predicate Answered(model: Model, msgs: seq<Message>, summary: string) {
    exists k, now, way :: StandsIn(msgs, now) && Reached(model, msgs, way) == Some(now) && model(k, now) == Summary(summary)
  }

  /** How a request came about: it is the whole list; or in another request the messages before its middle made way for
      their summary, which the model gave to its k-th request, itself come about in some way from those messages. */
  datatype Way = Whole | Shorter(before: Way, older: Way, cut: nat, k: nat)

  /** The request that is reached so; none where the model gave no summary. */
  function Reached(model: Model, msgs: seq<Message>, way: Way): Option<seq<Message>>
    decreases way
  {
    match way
    case Whole => Some(msgs)
    case Shorter(before, older, cut, k) =>
      match Reached(model, msgs, before)
      case None => None
      case Some(mid) =>
        if cut == 0 || cut > |mid| || !Nearest(mid, |mid|, cut) then None
        else
          match Reached(model, mid[..cut], older)
          case None => None
          case Some(asked) =>
            match model(k, asked)
            case Summary(text) => Some([Plain(User, "", Nodes.CompactionKind, Convert.HandoffPrefix + text)] + mid[cut..])
            case _ => None
  }

  lemma ReachedNext(model: Model, msgs: seq<Message>, way: Way, now: seq<Message>, cut: nat, summary: string) returns (next: Way)
    requires Reached(model, msgs, way) == Some(now) && 0 < cut <= |now| && Nearest(now, |now|, cut) && Answered(model, now[..cut], summary)
    ensures Reached(model, msgs, next) == Some(Rebuilt(summary, now, cut))
  {
    hide StandsIn, Nearest;
    var k, asked, older :| StandsIn(now[..cut], asked) && Reached(model, now[..cut], older) == Some(asked) && model(k, asked) == Summary(summary);
    next := Shorter(way, older, cut, k);
  }

  /** Summarizes msgs, in parts when one call will not hold them. The result is that of a request that stands in for
      msgs, and every request on the way keeps calls and results together when msgs does. */
  method CompactToFit(model: Model, k: nat, msgs: seq<Message>) returns (r: Fit, k': nat, ghost asked: seq<seq<Message>>)
    requires BreaksOff(model, k, msgs)
    ensures Finds(model, k, msgs, r, k')
    ensures r.Fits? ==> Answered(model, msgs, r.summary)
    ensures Paired(msgs) ==> AllPaired(asked)
    decreases |msgs|
  {
    hide Paired, Nearest, StandsIn, UserAt, SplitOf, Rebuilt, BreaksOff;
    ghost var way := Whole;
    var now := msgs;
    k', asked := k, [];
    StandsInSelf(msgs);
    EndsHere(model, k, msgs);
    ghost var fuel: nat :| Search(model, k, msgs, fuel).Some?;
    ghost var left := fuel;
    while true
      invariant StandsIn(msgs, now) && |now| <= |msgs| && Reached(model, msgs, way) == Some(now)
      invariant Search(model, k', now, left) == Search(model, k, msgs, fuel)
      invariant Paired(msgs) ==> AllPaired(asked)
      decreases left
    {
      if Paired(msgs) {
        StandsInPaired(msgs, now);
      }
      asked := asked + [now];
      var reply := model(k', now);
      var cut := SplitPoint(now);
      if reply.Summary? {
        return Fits(reply.text), k' + 1, asked;
      }
      CutBounds(now, cut);
      if !reply.TooLarge? || cut == 0 {
        return Unfit, k' + 1, asked;
      }
      if Paired(msgs) {
        OlderPaired(now, cut);
      }
      assert Ends(model, k' + 1, now[..cut]) by {
        assert Search(model, k' + 1, now[..cut], left - 1).Some?;
      }
      EndsHere(model, k' + 1, now[..cut]);
      var older, after, more := CompactToFit(model, k' + 1, now[..cut]);
      asked := asked + more;
      FindsOnce(model, k' + 1, now[..cut], older, after, left - 1);
      if older.Unfit? {
        return Unfit, after, asked;
      }
      StandsInMore(msgs, now, cut, older.summary);
      way := ReachedNext(model, msgs, way, now, cut, older.summary);
      RebuiltLength(older.summary, now, cut);
      now, k', left := Rebuilt(older.summary, now, cut), after, left - 1;
    }
  }

  lemma StandsInSelf(msgs: seq<Message>)
    ensures StandsIn(msgs, msgs)
  {
  }

  lemma CutBounds(msgs: seq<Message>, cut: nat)
    requires Nearest(msgs, |msgs|, cut)
    ensures cut > 0 ==> UserAt(msgs, cut) && cut < |msgs|
  {
  }

  // --- without that, it need not end

  /** A model that summarizes only lone messages, and always in the same words. */
  function Echo(k: nat, msgs: seq<Message>): Reply {
    if |msgs| == 1 then Summary("s") else TooLarge
  }

  /** Two messages, the second the user's: the cut is 1, the summary stands in for the first, and nothing gets shorter. */
  lemma {:induction false} NeverEnds(k: nat, a: Message, u: Message, fuel: nat)
    requires u.role.User?
    ensures Search(Echo, k, [a, u], fuel).None?
    decreases fuel
  {
    if fuel > 0 {
      var msgs := [a, u];
      SplitOfTwo(a, u);
      assert msgs[..1] == [a] && SplitOf([a], 1) == 0;
      if fuel > 1 {
        assert Search(Echo, k + 1, [a], fuel - 1) == Some((Fits("s"), k + 2));
        assert Rebuilt("s", msgs, 1) == [Handoff("s"), u];
        NeverEnds(k + 2, Handoff("s"), u, fuel - 1);
      }
    }
  }

  lemma SplitOfTwo(a: Message, u: Message)
    requires u.role.User?
    ensures SplitOf([a, u], 2) == 1
  {
    assert SplitOf([a, u], 0) == 0 && SplitOf([a, u], 1) == 0;
  }

  /** Such a model does not settle. */
  lemma EchoNeverSettles()
    ensures !Settles(Echo)
  {
    var a, u := Plain(User, "", "", "a"), Plain(User, "", "", "u");
    SplitOfTwo(a, u);
    OneMessageEndsExactly(Echo, 0, [a, u]);
    forall fuel: nat ensures Search(Echo, 0, [a, u], fuel).None? {
      NeverEnds(0, a, u, fuel);
    }
    assert SplitOf([a, u], |[a, u]|) == 1 && !Breaks(Echo, 0, [a, u]);
  }
}
