/** When a path is fit to send: every tool call on it is answered, once, before the next compaction. */
module Protocol {
  import opened Wrappers
  import opened Nodes

  predicate Answers(n: Node, r: Ref) {
    n.LinkedResult() && n.body.answers.ref == r
  }

  /** Neither asks for a tool, nor answers a call of the tree, nor starts a new window. */
  predicate Quiet(n: Node) {
    !n.LiveCall() && !n.LinkedResult() && !n.body.CompactionBody?
  }

  /** The calls still open after one more node; None once a result answers no open call, or a compaction cuts one off. */
  function Follow(open: Option<set<Ref>>, n: Node): Option<set<Ref>> {
    if open.None? then None
    else if n.LiveCall() then Some(open.value + {n.ref})
    else if n.LinkedResult() then
      if n.body.answers.ref in open.value then Some(open.value - {n.body.answers.ref}) else None
    else if n.body.CompactionBody? then
      if open.value == {} then open else None
    else open
  }

  function Pending(t: seq<Node>): Option<set<Ref>> {
    if t == [] then Some({}) else Follow(Pending(t[..|t| - 1]), t[|t| - 1])
  }

  predicate Settled(t: seq<Node>) {
    Pending(t) == Some({})
  }

  /** Nodes of a path come in the order they joined. */
  predicate InOrder(t: seq<Node>) {
    forall i, j :: 0 <= i < j < |t| ==> t[i].ref < t[j].ref
  }

  // --- what the monitor says, without the monitor

  predicate AnsweredIn(t: seq<Node>, r: Ref) {
    exists j :: 0 <= j < |t| && Answers(t[j], r)
  }

  /** j answers the call at i: after it, nothing else does, and no compaction lies between. */
  predicate AnsweredAt(t: seq<Node>, i: nat, j: nat)
    requires i < |t|
  {
    && i < j < |t| && Answers(t[j], t[i].ref)
    && (forall k :: 0 <= k < |t| && Answers(t[k], t[i].ref) ==> k == j)
    && (forall k :: i < k < j ==> !t[k].body.CompactionBody?)
  }

  ghost predicate HasAnswer(t: seq<Node>, i: nat)
    requires i < |t|
  {
    exists j :: AnsweredAt(t, i, j)
  }

  predicate CallBefore(t: seq<Node>, j: nat, r: Ref)
    requires j <= |t|
  {
    exists i :: 0 <= i < j && t[i].LiveCall() && t[i].ref == r
  }

  ghost predicate AnsweredOnce(t: seq<Node>) {
    && (forall i :: 0 <= i < |t| && t[i].LiveCall() ==> HasAnswer(t, i))
    && (forall j :: 0 <= j < |t| && t[j].LinkedResult() ==> CallBefore(t, j, t[j].body.answers.ref))
  }

  /** The calls of the first n nodes that those nodes leave without an answer. */
  predicate OpenAfter(t: seq<Node>, n: nat, r: Ref)
    requires n <= |t|
  {
    CallBefore(t, n, r) && !AnsweredIn(t[..n], r)
  }

  lemma PendingStep(t: seq<Node>, n: nat)
    requires n < |t|
    ensures Pending(t[..n + 1]) == Follow(Pending(t[..n]), t[n])
  {
    assert t[..n + 1][..n] == t[..n];
  }

  lemma PendingSnoc(t: seq<Node>, n: Node)
    ensures Pending(t + [n]) == Follow(Pending(t), n)
  {
    assert (t + [n])[..|t|] == t;
  }

  lemma AnsweredInStep(t: seq<Node>, n: nat, r: Ref)
    requires n < |t|
    ensures AnsweredIn(t[..n + 1], r) <==> AnsweredIn(t[..n], r) || Answers(t[n], r)
  {
    var p, q := t[..n], t[..n + 1];
    if AnsweredIn(p, r) {
      var j :| 0 <= j < |p| && Answers(p[j], r);
      assert Answers(q[j], r);
    }
    if Answers(t[n], r) {
      assert Answers(q[n], r);
    }
    if AnsweredIn(q, r) {
      var j :| 0 <= j < |q| && Answers(q[j], r);
      assert j < n ==> Answers(p[j], r);
    }
  }

  lemma CallBeforeStep(t: seq<Node>, n: nat, r: Ref)
    requires n < |t|
    ensures CallBefore(t, n + 1, r) <==> CallBefore(t, n, r) || (t[n].LiveCall() && t[n].ref == r)
  {
  }

  /** Every result so far comes after its call. */
  predicate LinksBefore(t: seq<Node>, n: nat)
    requires n <= |t|
  {
    forall j :: 0 <= j < n && t[j].LinkedResult() ==> CallBefore(t, j, t[j].body.answers.ref)
  }

  /** One node more moves the count as it moves the calls without an answer. */
  lemma OpenStep(t: seq<Node>, n: nat, r: Ref)
    requires InOrder(t) && n < |t| && LinksBefore(t, n)
    requires Pending(t[..n]).Some? && Follow(Pending(t[..n]), t[n]).Some?
    requires r in Pending(t[..n]).value <==> OpenAfter(t, n, r)
    ensures r in Follow(Pending(t[..n]), t[n]).value <==> OpenAfter(t, n + 1, r)
  {
    hide Pending, AnsweredIn, CallBefore, InOrder, LinksBefore;
    AnsweredInStep(t, n, r);
    CallBeforeStep(t, n, r);
    if t[n].LiveCall() && t[n].ref == r {
      NotAnsweredEarly(t, n);
    }
  }

  /** While the monitor has not objected, it holds exactly the calls without an answer. */
  lemma {:induction false} PendingIsOpen(t: seq<Node>, n: nat)
    requires InOrder(t) && n <= |t| && Pending(t[..n]).Some?
    ensures forall r :: r in Pending(t[..n]).value <==> OpenAfter(t, n, r)
    ensures LinksBefore(t, n)
  {
    if n == 0 {
      assert t[..0] == [] && Pending([]) == Some({});
    } else {
      hide Pending, AnsweredIn, CallBefore, InOrder, OpenAfter;
      PendingStep(t, n - 1);
      PendingIsOpen(t, n - 1);
      forall r ensures r in Pending(t[..n]).value <==> OpenAfter(t, n, r) {
        OpenStep(t, n - 1, r);
      }
      if t[n - 1].LinkedResult() {
        OpenIsCalled(t, n - 1, t[n - 1].body.answers.ref);
      }
    }
  }

  lemma OpenIsCalled(t: seq<Node>, n: nat, r: Ref)
    requires n <= |t| && OpenAfter(t, n, r)
    ensures CallBefore(t, n, r)
  {
  }

  /** A call that is only now made has no answer yet. */
  lemma NotAnsweredEarly(t: seq<Node>, n: nat)
    requires InOrder(t) && n < |t| && LinksBefore(t, n)
    ensures !AnsweredIn(t[..n], t[n].ref)
  {
    forall j | 0 <= j < n && t[j].LinkedResult() ensures t[j].body.answers.ref != t[n].ref {
      var i :| 0 <= i < j && t[i].LiveCall() && t[i].ref == t[j].body.answers.ref;
    }
  }

  /** What one answer does: the open call it closes is answered exactly there. */
  lemma {:induction false} ClosedCallsAreAnswered(t: seq<Node>, n: nat, i: nat)
    requires InOrder(t) && n <= |t| && Pending(t[..n]).Some? && i < n && t[i].LiveCall()
    ensures t[i].ref !in Pending(t[..n]).value ==> HasAnswer(t[..n], i)
    ensures t[i].ref in Pending(t[..n]).value ==> forall k :: i < k < n ==> !t[k].body.CompactionBody?
  {
    hide InOrder, HasAnswer;
    PendingIsOpen(t, n);
    PendingStep(t, n - 1);
    var p, q, r := t[..n - 1], t[..n], t[i].ref;
    if i < n - 1 {
      ClosedCallsAreAnswered(t, n - 1, i);
      PendingIsOpen(t, n - 1);
      if r !in Pending(p).value {
        AnswerStays(t, n - 1, i);
      } else if r !in Pending(q).value {
        AnsweredNow(t, n - 1, i);
      }
    }
  }

  lemma AnsweredNow(t: seq<Node>, n: nat, i: nat)
    requires i < n < |t| && Answers(t[n], t[i].ref) && !AnsweredIn(t[..n], t[i].ref)
    requires forall k :: i < k < n ==> !t[k].body.CompactionBody?
    ensures HasAnswer(t[..n + 1], i)
  {
    var q := t[..n + 1];
    forall k | 0 <= k < n ensures !Answers(q[k], t[i].ref) {
      assert q[k] == t[..n][k];
    }
    assert AnsweredAt(q, i, n);
  }

  lemma AnswerStays(t: seq<Node>, n: nat, i: nat)
    requires InOrder(t) && n < |t| && i < n && t[i].LiveCall() && HasAnswer(t[..n], i)
    requires Pending(t[..n + 1]).Some?
    ensures HasAnswer(t[..n + 1], i)
  {
    var j: nat :| AnsweredAt(t[..n], i, j);
    var p, q, r := t[..n], t[..n + 1], t[i].ref;
    PendingStep(t, n);
    PendingIsOpen(t, n);
    assert Answers(p[j], r) && AnsweredIn(p, r);
    assert !Answers(t[n], r);
    assert AnsweredAt(q, i, j) by {
      assert forall k :: 0 <= k < n ==> p[k] == q[k];
    }
  }

  lemma AnswerIsFirst(t: seq<Node>, n: nat)
    requires InOrder(t) && AnsweredOnce(t) && n < |t| && t[n].LinkedResult()
    ensures OpenAfter(t, n, t[n].body.answers.ref)
  {
    var r := t[n].body.answers.ref;
    var i :| 0 <= i < n && t[i].LiveCall() && t[i].ref == r;
    var j: nat :| AnsweredAt(t, i, j);
    assert Answers(t[n], r);
    forall k | 0 <= k < n ensures !Answers(t[..n][k], r) {
      assert t[..n][k] == t[k];
    }
  }

  lemma NothingOpenAcross(t: seq<Node>, n: nat, r: Ref)
    requires AnsweredOnce(t) && n <= |t|
    requires n == |t| || t[n].body.CompactionBody?
    ensures !OpenAfter(t, n, r)
  {
    if CallBefore(t, n, r) {
      var i :| 0 <= i < n && t[i].LiveCall() && t[i].ref == r;
      var j: nat :| AnsweredAt(t, i, j);
      assert j < n;
      assert Answers(t[..n][j], r);
    }
  }

  lemma NoneOpenAcross(t: seq<Node>, n: nat)
    requires AnsweredOnce(t) && n <= |t| && Pending(t[..n]).Some?
    requires n == |t| || t[n].body.CompactionBody?
    requires forall r :: r in Pending(t[..n]).value <==> OpenAfter(t, n, r)
    ensures Pending(t[..n]) == Some({})
  {
    hide AnsweredOnce, OpenAfter, Pending;
    var p := Pending(t[..n]).value;
    forall r ensures r !in p {
      NothingOpenAcross(t, n, r);
    }
    assert p == {};
  }

  lemma {:induction false} OrderlyIsFollowed(t: seq<Node>, n: nat)
    requires InOrder(t) && AnsweredOnce(t) && n <= |t|
    ensures Pending(t[..n]).Some?
  {
    if n > 0 {
      hide AnsweredOnce, InOrder, OpenAfter;
      OrderlyIsFollowed(t, n - 1);
      PendingStep(t, n - 1);
      PendingIsOpen(t, n - 1);
      if t[n - 1].LinkedResult() {
        AnswerIsFirst(t, n - 1);
      } else if t[n - 1].body.CompactionBody? {
        NoneOpenAcross(t, n - 1);
      }
    }
  }

  /** The monitor ends with nothing open exactly when every live call has one answer, after it and with no compaction
      between the two, and every answer answers such a call. */
  lemma SettledMeansAnsweredOnce(t: seq<Node>)
    requires InOrder(t)
    ensures Settled(t) <==> AnsweredOnce(t)
  {
    assert t[..|t|] == t;
    if Settled(t) {
      PendingIsOpen(t, |t|);
      forall i | 0 <= i < |t| && t[i].LiveCall() ensures HasAnswer(t, i) {
        ClosedCallsAreAnswered(t, |t|, i);
      }
    }
    if AnsweredOnce(t) {
      OrderlyIsFollowed(t, |t|);
      PendingIsOpen(t, |t|);
      NoneOpenAcross(t, |t|);
    }
  }

  /** A window that starts at a compaction holds a call exactly when it holds the answer. */
  lemma WindowKeepsPairs(t: seq<Node>, w: nat, i: nat, j: nat)
    requires w < |t| && t[w].body.CompactionBody? && i < |t| && t[i].LiveCall() && AnsweredAt(t, i, j)
    ensures w <= i <==> w <= j
  {
  }

  // --- how the loop's steps move the monitor

  lemma {:induction false} QuietKeeps(t: seq<Node>, q: seq<Node>)
    requires forall i :: 0 <= i < |q| ==> Quiet(q[i])
    ensures Pending(t + q) == Pending(t)
  {
    hide Pending, Quiet;
    if q == [] {
      assert t + q == t;
    } else {
      var init := q[..|q| - 1];
      QuietKeeps(t, init);
      assert t + q == (t + init) + [q[|q| - 1]];
      PendingSnoc(t + init, q[|q| - 1]);
      QuietFollows(Pending(t), q[|q| - 1]);
    }
  }

  lemma QuietFollows(open: Option<set<Ref>>, n: Node)
    requires Quiet(n)
    ensures Follow(open, n) == open
  {
  }

  /** The calls among nodes. */
  function LiveRefs(q: seq<Node>): seq<Ref> {
    if q == [] then []
    else LiveRefs(q[..|q| - 1]) + if q[|q| - 1].LiveCall() then [q[|q| - 1].ref] else []
  }

  function Elems(s: seq<Ref>): set<Ref> {
    set r | r in s
  }

  /** What a call produces: no node answers a call of the tree or starts a window. */
  predicate Produced(n: Node) {
    !n.LinkedResult() && !n.body.CompactionBody?
  }

  lemma {:induction false} ProducedOpens(t: seq<Node>, q: seq<Node>)
    requires Pending(t).Some? && forall i :: 0 <= i < |q| ==> Produced(q[i])
    ensures Pending(t + q) == Some(Pending(t).value + Elems(LiveRefs(q)))
  {
    if q == [] {
      assert t + q == t && Elems(LiveRefs(q)) == {} && Pending(t).value + {} == Pending(t).value;
    } else {
      var init, n := q[..|q| - 1], q[|q| - 1];
      ProducedOpens(t, init);
      assert t + q == (t + init) + [n];
      PendingSnoc(t + init, n);
      if n.LiveCall() {
        assert Elems(LiveRefs(q)) == Elems(LiveRefs(init)) + {n.ref};
        assert Pending(t).value + Elems(LiveRefs(init)) + {n.ref} == Pending(t).value + Elems(LiveRefs(q));
      } else {
        assert LiveRefs(q) == LiveRefs(init);
      }
    }
  }

  predicate Distinct(s: seq<Ref>) {
    forall i, j :: 0 <= i < j < |s| ==> s[i] != s[j]
  }

  lemma {:induction false} AnswersClose(t: seq<Node>, rs: seq<Node>, todo: seq<Ref>)
    requires Pending(t).Some? && |rs| == |todo| && Distinct(todo)
    requires forall i :: 0 <= i < |todo| ==> todo[i] in Pending(t).value && Answers(rs[i], todo[i])
    ensures Pending(t + rs) == Some(Pending(t).value - Elems(todo))
  {
    if rs == [] {
      assert t + rs == t;
      assert Elems(todo) == {} && Pending(t).value - {} == Pending(t).value;
    } else {
      var k := |rs| - 1;
      AnswersClose(t, rs[..k], todo[..k]);
      assert t + rs == (t + rs[..k]) + [rs[k]];
      PendingSnoc(t + rs[..k], rs[k]);
      assert todo == todo[..k] + [todo[k]];
      assert Elems(todo) == Elems(todo[..k]) + {todo[k]};
      assert todo[k] !in Elems(todo[..k]);
      var p := Pending(t).value;
      assert p - Elems(todo[..k]) - {todo[k]} == p - Elems(todo);
    }
  }

  /** Superseding the nodes of S. */
  function Mark(t: seq<Node>, S: set<Ref>): (r: seq<Node>)
    ensures |r| == |t|
    ensures forall i :: 0 <= i < |t| ==> r[i] == if t[i].ref in S then t[i].(superseded := true) else t[i]
  {
    if t == [] then []
    else
      var n := t[|t| - 1];
      Mark(t[..|t| - 1], S) + [if n.ref in S then n.(superseded := true) else n]
  }

  /** A node of S is the open call itself, and nothing has answered it. */
  lemma OnlyCallsAreMarked(t: seq<Node>, n: nat, S: set<Ref>)
    requires InOrder(t) && n < |t| && Pending(t).Some? && S <= Pending(t).value
    ensures t[n].ref in S ==> t[n].LiveCall()
    ensures t[n].LinkedResult() ==> t[n].body.answers.ref !in S
  {
    assert t[..|t|] == t;
    PendingIsOpen(t, |t|);
    if t[n].ref in S {
      assert CallBefore(t, |t|, t[n].ref);
    }
    if t[n].LinkedResult() {
      assert Answers(t[n], t[n].body.answers.ref);
    }
  }

  /** Superseding open calls closes them: a superseded call is off the wire and wants no answer. */
  lemma {:induction false} MarkCloses(t: seq<Node>, n: nat, S: set<Ref>)
    requires InOrder(t) && n <= |t| && Pending(t).Some? && S <= Pending(t).value
    ensures Pending(t[..n]).Some?
    ensures Pending(Mark(t, S)[..n]) == Some(Pending(t[..n]).value - S)
  {
    PrefixFollowed(t, n);
    if n == 0 {
      var none: set<Ref> := {};
      assert t[..0] == Mark(t, S)[..0] == [] && none - S == none;
    } else {
      hide InOrder;
      MarkCloses(t, n - 1, S);
      PendingStep(t, n - 1);
      PendingStep(Mark(t, S), n - 1);
      OnlyCallsAreMarked(t, n - 1, S);
      var p, last := Pending(t[..n - 1]).value, t[n - 1];
      var marked := Mark(t, S)[n - 1];
      assert marked == if last.ref in S then last.(superseded := true) else last;
      hide Pending, Mark;
      FollowMarked(p, last, marked, S);
    }
  }

  /** One node, marked or not, moves both counts alike. */
  lemma FollowMarked(p: set<Ref>, n: Node, marked: Node, S: set<Ref>)
    requires marked == if n.ref in S then n.(superseded := true) else n
    requires n.ref in S ==> n.LiveCall()
    requires n.LinkedResult() ==> n.body.answers.ref in p && n.body.answers.ref !in S
    requires n.body.CompactionBody? ==> p == {}
    ensures Follow(Some(p), n).Some? && Follow(Some(p - S), marked) == Some(Follow(Some(p), n).value - S)
  {
    if n.LiveCall() {
      assert n.ref !in S ==> p + {n.ref} - S == p - S + {n.ref};
      assert n.ref in S ==> p + {n.ref} - S == p - S;
    } else if n.LinkedResult() {
      var r := n.body.answers.ref;
      assert p - {r} - S == p - S - {r};
    }
  }

  lemma {:induction false} PrefixFollowed(t: seq<Node>, n: nat)
    requires n <= |t| && Pending(t).Some?
    ensures Pending(t[..n]).Some?
    decreases |t| - n
  {
    if n == |t| {
      assert t[..n] == t;
    } else {
      PrefixFollowed(t, n + 1);
      PendingStep(t, n);
    }
  }

  lemma MarkClosesAll(t: seq<Node>, S: set<Ref>)
    requires InOrder(t) && Pending(t).Some? && S <= Pending(t).value
    ensures Pending(Mark(t, S)) == Some(Pending(t).value - S)
  {
    MarkCloses(t, |t|, S);
    assert t[..|t|] == t && Mark(t, S)[..|t|] == Mark(t, S);
  }
}
