/** A text with a history: four writes, and which of them keep the older values (core/streamstring.go). */
module StreamStrings {

  datatype Source = Streamed | Final | Retry | HostEdit

  datatype Revision = Revision(value: string, source: Source)

  /** The field's state: the history, the builder, the settled value, and whether it is done. */
  datatype Field = Field(revs: seq<Revision>, b: string, s: string, done: bool, source: Source) {
    function Current(): string {
      if done then s else b
    }

    /** The history and then the current value. */
    function History(): seq<Revision> {
      revs + [Revision(Current(), source)]
    }

    function Pushed(src: Source): Field {
      Field(revs + [Revision(Current(), src)], "", "", done, source)
    }
  }

  const Empty := Field([], "", "", false, Streamed)

  function Finished(value: string): Field {
    Field([], "", value, true, Final)
  }

  datatype Write = Append(delta: string) | Finish(value: string) | Restart | Set(edit: string, editor: Source)

  function Apply(f: Field, w: Write): Field {
    match w
    case Append(delta) =>
      if delta == "" then f
      else if f.done then Field(f.revs + [Revision(f.s, f.source)], f.s + delta, "", false, Streamed)
      else f.(b := f.b + delta)
    case Finish(final) =>
      var kept := if !f.done && f.Current() != "" && final != f.Current() then [Revision(f.Current(), Streamed)] else [];
      Field(f.revs + kept, "", final, true, Final)
    case Restart =>
      if f.Current() == "" && f.revs == [] then f else f.Pushed(Retry).(done := false, source := Streamed)
    case Set(value, src) =>
      f.Pushed(f.source).(s := value, done := true, source := src)
  }

  function ApplyAll(f: Field, ws: seq<Write>): Field {
    if ws == [] then f else Apply(ApplyAll(f, ws[..|ws| - 1]), ws[|ws| - 1])
  }

  class StreamString {
    var b: string
    var s: string
    var done: bool
    var source: Source
    var revs: seq<Revision>

    function State(): Field
      reads this
    {
      Field(revs, b, s, done, source)
    }

    constructor ()
      ensures State() == Empty
    {
      b, s, done, source, revs := "", "", false, Streamed, [];
    }

    constructor FinishedString(value: string)
      ensures State() == Finished(value)
    {
      b, s, done, source, revs := "", value, true, Final, [];
    }

    function Current(): string
      reads this
    {
      if done then s else b
    }

    method Revisions() returns (out: seq<Revision>)
      ensures out == State().History()
      ensures out[|out| - 1].value == Current()
    {
      out := revs + [Revision(Current(), source)];
    }

    method PushRevision(src: Source)
      modifies this
      ensures State() == old(State()).Pushed(src)
    {
      revs := revs + [Revision(Current(), src)];
      b := "";
      s := "";
    }

    method Append(delta: string)
      modifies this
      ensures State() == Apply(old(State()), Write.Append(delta))
    {
      if delta == "" {
        return;
      }
      if done {
        // On a field that is done this begins a new value, and the old one goes to the history.
        revs := revs + [Revision(s, source)];
        b := s;
        s, done, source := "", false, Streamed;
      }
      b := b + delta;
    }

    method Finish(final: string)
      modifies this
      ensures State() == Apply(old(State()), Write.Finish(final))
    {
      var streamed := Current();
      if !done && streamed != "" && final != streamed {
        revs := revs + [Revision(streamed, Streamed)];
      }
      b := "";
      s, done, source := final, true, Final;
    }

    method Restart()
      modifies this
      ensures State() == Apply(old(State()), Write.Restart)
    {
      if Current() == "" && |revs| == 0 {
        return;
      }
      PushRevision(Retry);
      done, source := false, Streamed;
    }

    method Set(value: string, src: Source)
      modifies this
      ensures State() == Apply(old(State()), Write.Set(value, src))
    {
      PushRevision(source);
      s, done, source := value, true, src;
    }
  }

  // --- what the history keeps

  ghost predicate KeptIn(h: seq<Revision>, v: string) {
    exists i :: 0 <= i < |h| && v <= h[i].value
  }

  /** Some entry of the history begins with v. */
  ghost predicate Kept(f: Field, v: string) {
    KeptIn(f.History(), v)
  }

  /** The write loses nothing it can be asked to keep: it does not put a new value over a finished one that neither the
      new value nor an older entry begins with. */
  ghost predicate Gentle(f: Field, w: Write) {
    w.Finish? && f.done ==> f.s <= w.value || KeptIn(f.revs, f.s)
  }

  lemma KeptMore(g: seq<Revision>, h: seq<Revision>, v: string)
    requires KeptIn(g, v) && g <= h
    ensures KeptIn(h, v)
  {
    var i :| 0 <= i < |g| && v <= g[i].value;
    assert h[i] == g[i];
  }

  lemma PrefixOfPrefix(u: string, v: string, w: string)
    requires u <= v && v <= w
    ensures u <= w
  {
  }

  /** No write of any kind drops an entry of the history before the current value. */
  lemma HistoryGrows(f: Field, w: Write)
    ensures f.revs <= Apply(f, w).revs
  {
  }

  lemma CurrentKept(f: Field, w: Write)
    requires Gentle(f, w)
    ensures Kept(Apply(f, w), f.Current())
  {
    var after := Apply(f, w);
    var h := after.History();
    if w.Finish? && f.done && !(f.s <= w.value) {
      KeptMore(f.revs, h, f.s);
    } else if |after.revs| > |f.revs| {
      assert h[|f.revs|].value == f.Current();
    } else {
      assert f.Current() <= h[|h| - 1].value;
    }
  }

  lemma GentleKeeps(f: Field, w: Write, v: string)
    requires Gentle(f, w) && Kept(f, v)
    ensures Kept(Apply(f, w), v)
  {
    var h := f.History();
    var i :| 0 <= i < |h| && v <= h[i].value;
    if i < |f.revs| {
      HistoryGrows(f, w);
      assert Apply(f, w).History()[i] == f.revs[i];
    } else {
      CurrentKept(f, w);
      var after := Apply(f, w).History();
      var j :| 0 <= j < |after| && f.Current() <= after[j].value;
      PrefixOfPrefix(v, f.Current(), after[j].value);
    }
  }

  /** A write keeps every value the field keeps, exactly when it is gentle. Only a finish of a finished field can fail. */
  lemma KeepsExactlyWhenGentle(f: Field, w: Write)
    ensures (forall v :: Kept(f, v) ==> Kept(Apply(f, w), v)) <==> Gentle(f, w)
  {
    if Gentle(f, w) {
      forall v | Kept(f, v) ensures Kept(Apply(f, w), v) {
        GentleKeeps(f, w, v);
      }
    } else {
      var h := f.History();
      assert h[|h| - 1].value == f.s;
      assert Kept(f, f.s);
      var after := Apply(f, w).History();
      assert after == f.revs + [Revision(w.value, Final)];
      forall j | 0 <= j < |after| ensures !(f.s <= after[j].value) {
        assert j < |f.revs| ==> after[j] == f.revs[j];
      }
    }
  }

  /** Every write of the list repeats the value when it finishes a finished field. */
  ghost predicate Repeats(f: Field, ws: seq<Write>) {
    forall i :: 0 <= i < |ws| && ws[i].Finish? && ApplyAll(f, ws[..i]).done ==> ws[i].value == ApplyAll(f, ws[..i]).s
  }

  /** Over any such list of writes, the history only grows and every value the field ever held begins some entry. */
  lemma {:induction false} NothingIsLost(f: Field, ws: seq<Write>)
    requires Repeats(f, ws)
    ensures f.revs <= ApplyAll(f, ws).revs
    ensures forall i :: 0 <= i <= |ws| ==> Kept(ApplyAll(f, ws), ApplyAll(f, ws[..i]).Current())
  {
    if ws == [] {
      assert f.History()[|f.revs|].value == f.Current();
    } else {
      var init, w := ws[..|ws| - 1], ws[|ws| - 1];
      assert forall i :: 0 <= i <= |init| ==> init[..i] == ws[..i];
      NothingIsLost(f, init);
      var before := ApplyAll(f, init);
      HistoryGrows(before, w);
      assert Gentle(before, w);
      forall i | 0 <= i <= |ws| ensures Kept(ApplyAll(f, ws), ApplyAll(f, ws[..i]).Current()) {
        var after := ApplyAll(f, ws);
        if i <= |init| {
          GentleKeeps(before, w, ApplyAll(f, init[..i]).Current());
        } else {
          assert ws[..i] == ws;
          assert after.History()[|after.revs|].value == after.Current();
        }
      }
    }
  }

  /** Without that condition a value is lost: finishing a finished field with something else. */
  lemma FinishTwiceLoses()
    ensures var f := Finished("a"); Kept(f, "a") && !Kept(Apply(f, Finish("b")), "a")
  {
    var f := Finished("a");
    assert f.History()[0].value == "a";
    var after := Apply(f, Finish("b")).History();
    assert after == [Revision("b", Final)];
    assert !("a" <= "b") by {
      assert "a"[0] != "b"[0];
    }
  }

  /** What a write makes of the value and of the history, field by field. */
  lemma WriteSays(f: Field, w: Write)
    ensures var g := Apply(f, w);
            match w
            case Append(delta) =>
              && g.Current() == f.Current() + delta && (if delta == "" then g == f else !g.done)
              && (delta != "" ==> g.History() == if f.done then f.History() + [Revision(g.Current(), Streamed)]
                                                 else f.revs + [Revision(g.Current(), f.source)])
            case Finish(final) =>
              && g.Current() == final && g.done
              && g.History() == f.revs + (if f.done || f.Current() in {"", final} then [] else [Revision(f.Current(), Streamed)])
                                + [Revision(final, Final)]
            case Restart =>
              if f.Current() == "" && f.revs == [] then g == f
              else g.Current() == "" && !g.done && g.History() == f.revs + [Revision(f.Current(), Retry), Revision("", Streamed)]
            case Set(edit, editor) =>
              g.Current() == edit && g.done && g.History() == f.History() + [Revision(edit, editor)]
  {
  }
}
