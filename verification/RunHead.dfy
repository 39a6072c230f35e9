/** What a request begins with after a compaction (internal/loop/autocompact.go, core/convert.go). */
module RunHeads {
  import opened Wrappers
  import opened Messages
  import opened Nodes
  import opened Convert
  import opened Ledgers
  import opened RunRecords
  import opened RunPaths
  import opened Readings
  import AutoCompact
  import StreamStrings

  predicate NoneBetween(log: seq<Event>, i: nat, j: nat) {
    forall k :: i < k < j && k < |log| ==> !log[k].Compacted?
  }

  /** The request is headed by the summary: its first message is the summary's, whatever its id. */
  predicate HeadedBy(prompt: seq<Message>, summary: string) {
    prompt != [] && prompt[0].(id := "") == AutoCompact.Handoff(summary)
  }

  /** Every request after a compaction begins with the newest summary. */
  predicate Headed(log: seq<Event>) {
    forall i, j :: 0 <= i < j < |log| && log[i].Compacted? && log[j].Called? && NoneBetween(log, i, j) ==>
      HeadedBy(log[j].prompt, log[i].summary)
  }

  lemma {:induction false} StartIsNewest(log: seq<Event>, start: nat, i: nat)
    requires i < |log| && log[i].Compacted? && NoneBetween(log, i, |log|)
    ensures StartAt(log, start) == log[i].at
  {
    if i < |log| - 1 {
      assert NoneBetween(log[..|log| - 1], i, |log| - 1);
      StartIsNewest(log[..|log| - 1], start, i);
    }
  }

  /** A summary stays on the wire. */
  lemma SummaryStays(log: seq<Event>, w: World, v0: Ledger, v: Ledger, i: nat)
    requires Sound(v) && Grew(log, w, v0, v) && |v0.trail| <= i < |v.trail| && v.trail[i].body.CompactionBody?
    ensures !v.trail[i].superseded
  {
    hide Sound, Grew;
    if v.trail[i].superseded {
      var _, _ := OffTheWire(log, w, v0, v, i);
    }
  }

  lemma PromptBegins(t: seq<Node>, from: nat, to: nat, summary: string)
    requires from < to <= |t| && !t[from].superseded && t[from].kind == CompactionKind
    requires t[from].body.CompactionBody? && t[from].body.summary == StreamStrings.Finished(summary)
    ensures HeadedBy(Flatten(t[from..to]), summary)
  {
    hide Flatten;
    var n, q := t[from], t[from + 1..to];
    assert t[from..to] == [] + [n] + q;
    SummaryReads([], n, q);
    NothingReads();
  }

  lemma NothingReads()
    ensures Flatten([]) == []
  {
  }

  lemma CallIsHeaded(log: seq<Event>, w: World, v0: Ledger, v: Ledger, i: nat, j: nat)
    requires Carries(log, v0, v) && Grew(log, w, v0, v) && Sound(v)
    requires i < j < |log| && log[i].Compacted? && log[j].Called? && NoneBetween(log, i, j)
    ensures HeadedBy(log[j].prompt, log[i].summary)
  {
    hide Flatten, Grew, Sound, HeadedBy, AllAnswered, StartAt, CallsBefore, StreamStrings.Finished;
    assert CarriesAt(log, j, v0, v) && CompactsAt(log[i], v);
    assert log[..j][i] == log[i];
    assert NoneBetween(log[..j], i, j);
    StartIsNewest(log[..j], v0.start, i);
    SummaryStays(log, w, v0, v, log[i].at);
    PromptBegins(v.trail, log[i].at, v.streams[CallsBefore(log, j, v0)].at, log[i].summary);
  }

  /** So in any run every request after a compaction is headed by its summary. */
  lemma RunIsHeaded(log: seq<Event>, w: World, v0: Ledger, v: Ledger)
    requires Carries(log, v0, v) && Grew(log, w, v0, v) && Sound(v)
    ensures Headed(log)
  {
    hide Carries, Grew, Sound, HeadedBy, NoneBetween;
    forall i, j | 0 <= i < j < |log| && log[i].Compacted? && log[j].Called? && NoneBetween(log, i, j)
      ensures HeadedBy(log[j].prompt, log[i].summary)
    {
      CallIsHeaded(log, w, v0, v, i, j);
    }
  }
}
