/** What a tree holds, indexed by value, so that a turn that loses some is noticed (internal/loop/session_statecheck.go). */
module StateCheck {
  import opened ByteOrder
  import opened Wrappers
  import opened Nodes
  import opened Ledgers
  import StreamStrings

  type Index = map<string, string>

  datatype Entry = Entry(field: string, value: string)

  /** What a body keeps in a StreamString, when it has such a field. */
  function FieldOf(b: Body): Option<Field> {
    match b
    case AssistantBody(f) => Some(f)
    case ThinkingBody(f, _, _, _, _, _, _, _) => Some(f)
    case ToolCallBody(_, _, f) => Some(f)
    case CompactionBody(f, _) => Some(f)
    case _ => None
  }

  function RevisionEntries(revs: seq<StreamStrings.Revision>): (es: seq<Entry>)
    ensures |es| == |revs|
    ensures forall i :: 0 <= i < |revs| ==> es[i] == Entry("field0", revs[i].value)
  {
    if revs == [] then [] else RevisionEntries(revs[..|revs| - 1]) + [Entry("field0", revs[|revs| - 1].value)]
  }

  /** Every value a node holds: each revision of its stream field, and its opaque payloads. */
  function Entries(b: Body): seq<Entry> {
    (match FieldOf(b)
     case Some(f) => RevisionEntries(f.History())
     case None => [])
    + (if b.ThinkingBody? then
         [Entry("signature", b.signature), Entry("encrypted", b.encrypted), Entry("redacted", b.redacted), Entry("details", b.details)]
       else [])
  }

  /** The text a body is about: what the assistant said or thought, a call's arguments, or a summary. */
  predicate IsTextOf(f: Field, b: Body) {
    match b
    case AssistantBody(text) => f == text
    case ThinkingBody(thought, _, _, _, _, _, _, _) => f == thought
    case ToolCallBody(_, _, arguments) => f == arguments
    case CompactionBody(summary, _) => f == summary
    case _ => false
  }

  /** An entry is a value the text had or has, or one of the four opaque payloads of a thought. */
  lemma EntriesAre(b: Body, e: Entry)
    ensures e in Entries(b) <==>
              || (e.field == "field0" && exists f :: IsTextOf(f, b) && exists i :: 0 <= i < |f.History()| && f.History()[i].value == e.value)
              || (b.ThinkingBody? && e in {Entry("signature", b.signature), Entry("encrypted", b.encrypted),
                                           Entry("redacted", b.redacted), Entry("details", b.details)})
  {
    if FieldOf(b).Some? {
      var f := FieldOf(b).value;
      assert IsTextOf(f, b);
      var es := RevisionEntries(f.History());
      assert e in es <==> exists i :: 0 <= i < |es| && es[i] == e;
      assert e in es <==> e.field == "field0" && exists i :: 0 <= i < |f.History()| && f.History()[i].value == e.value;
    }
  }

  /** Some node of nodes holds the value. */
  ghost predicate Holds(nodes: seq<Node>, id: string, e: Entry) {
    e.value != "" && exists r :: 0 <= r < |nodes| && nodes[r].id == id && e in Entries(nodes[r].body)
  }

  function Key(id: string, e: Entry, hash: string -> string): string {
    id + "/" + e.field + "/" + hash(e.value)
  }

  /** The form of a digest: sixteen characters, none a slash. */
  ghost predicate Digest(hash: string -> string) {
    forall v :: |hash(v)| == 16 && '/' !in hash(v)
  }

  /** Some node holds the value. */
  ghost predicate Held(nodes: seq<Node>, v: string) {
    exists id, e :: Holds(nodes, id, e) && e.value == v
  }

  /** No two of the values the two trees hold, finitely many, have the same digest. */
  ghost predicate NoCollision(hash: string -> string, a: seq<Node>, b: seq<Node>) {
    forall u, v :: (Held(a, u) || Held(b, u)) && (Held(a, v) || Held(b, v)) && hash(u) == hash(v) ==> u == v
  }

  /** There are such digests: any function cut or filled to length has the form. */
  lemma DigestExists() returns (hash: string -> string)
    ensures Digest(hash)
  {
    var zeros := "0000000000000000";
    hash := v => zeros;
    assert |zeros| == 16;
  }

  predicate IndexesNode(k: string, n: Node, hash: string -> string) {
    exists i :: 0 <= i < |Entries(n.body)| && Entries(n.body)[i].value != "" && k == Key(n.id, Entries(n.body)[i], hash)
  }

  predicate IndexesSome(k: string, nodes: seq<Node>, refs: seq<Ref>, hash: string -> string) {
    exists i :: 0 <= i < |refs| && refs[i] < |nodes| && IndexesNode(k, nodes[refs[i]], hash)
  }

  predicate Indexes(k: string, nodes: seq<Node>, hash: string -> string) {
    exists r :: 0 <= r < |nodes| && IndexesNode(k, nodes[r], hash)
  }

  ghost predicate IndexOf(idx: Index, nodes: seq<Node>, hash: string -> string) {
    forall k :: k in idx <==> Indexes(k, nodes, hash)
  }

  method IndexNode(idx: Index, n: Node, hash: string -> string) returns (out: Index)
    ensures forall k :: k in out <==> k in idx || IndexesNode(k, n, hash)
  {
    out := idx;
    var es := Entries(n.body);
    for i := 0 to |es|
      invariant forall k :: k in out <==> k in idx || exists j :: 0 <= j < i && es[j].value != "" && k == Key(n.id, es[j], hash)
    {
      if es[i].value != "" {
        out := out[Key(n.id, es[i], hash) := es[i].field + " " + n.id];
      }
    }
  }

  method IndexNodes(nodes: seq<Node>, order: seq<Ref>, hash: string -> string) returns (idx: Index)
    requires forall r :: r in order <==> 0 <= r < |nodes|
    ensures IndexOf(idx, nodes, hash)
  {
    hide IndexesNode;
    idx := map[];
    for i := 0 to |order|
      invariant forall k :: k in idx <==> IndexesSome(k, nodes, order[..i], hash)
    {
      assert order[..i + 1] == order[..i] + [order[i]] && order[i] in order;
      forall k ensures IndexesSome(k, nodes, order[..i + 1], hash)
                  <==> IndexesSome(k, nodes, order[..i], hash) || IndexesNode(k, nodes[order[i]], hash)
      {
        IndexesSnoc(k, nodes, order[..i], order[i], hash);
      }
      idx := IndexNode(idx, nodes[order[i]], hash);
    }
    assert order[..|order|] == order;
    forall k ensures IndexesSome(k, nodes, order, hash) <==> Indexes(k, nodes, hash) {
      IndexesAll(k, nodes, order, hash);
    }
  }

  lemma IndexesSnoc(k: string, nodes: seq<Node>, refs: seq<Ref>, r: Ref, hash: string -> string)
    requires r < |nodes|
    ensures IndexesSome(k, nodes, refs + [r], hash) <==> IndexesSome(k, nodes, refs, hash) || IndexesNode(k, nodes[r], hash)
  {
    hide IndexesNode;
    var more := refs + [r];
    if IndexesNode(k, nodes[r], hash) {
      assert more[|refs|] == r;
    }
    if IndexesSome(k, nodes, refs, hash) {
      var i :| 0 <= i < |refs| && refs[i] < |nodes| && IndexesNode(k, nodes[refs[i]], hash);
      assert more[i] == refs[i];
    }
  }

  lemma IndexesAll(k: string, nodes: seq<Node>, order: seq<Ref>, hash: string -> string)
    requires forall r :: r in order <==> 0 <= r < |nodes|
    ensures IndexesSome(k, nodes, order, hash) <==> Indexes(k, nodes, hash)
  {
    hide IndexesNode;
    if Indexes(k, nodes, hash) {
      var r :| 0 <= r < |nodes| && IndexesNode(k, nodes[r], hash);
      assert r in order;
      var i :| 0 <= i < |order| && order[i] == r;
    }
    if IndexesSome(k, nodes, order, hash) {
      var i :| 0 <= i < |order| && order[i] < |nodes| && IndexesNode(k, nodes[order[i]], hash);
      assert order[i] in order;
    }
  }

  /** These are the keys of before that after lacks, each once. */
  ghost predicate AreLost(keys: seq<string>, before: Index, after: Index) {
    && (forall k :: k in keys <==> k in before && k !in after)
    && (forall i, j :: 0 <= i < j < |keys| ==> keys[i] != keys[j])
  }

  ghost function NamesOf(keys: seq<string>, before: Index): (names: seq<string>)
    requires forall k :: k in keys ==> k in before
    ensures |names| == |keys|
  {
    if keys == [] then [] else NamesOf(keys[..|keys| - 1], before) + [before[keys[|keys| - 1]]]
  }

  lemma NamesSnoc(keys: seq<string>, k: string, before: Index)
    requires (forall x :: x in keys ==> x in before) && k in before
    ensures (forall x :: x in keys + [k] ==> x in before) && NamesOf(keys + [k], before) == NamesOf(keys, before) + [before[k]]
  {
    assert (keys + [k])[..|keys|] == keys;
  }

  /** The name of every key of before that after lacks, in order. */
  method Missing(before: Index, after: Index) returns (out: seq<string>, ghost keys: seq<string>)
    ensures AreLost(keys, before, after) && multiset(out) == multiset(NamesOf(keys, before)) && Ascending(out)
    ensures out == [] <==> before.Keys <= after.Keys
  {
    hide NamesOf, Ascending, Insert;
    out, keys := [], [];
    NothingLost(before);
    var rest := before.Keys;
    while rest != {}
      invariant rest <= before.Keys
      invariant AreLost(keys, map k | k in before && k !in rest :: before[k], after)
      invariant forall k :: k in keys ==> k in before
      invariant multiset(out) == multiset(NamesOf(keys, before)) && Ascending(out) && |out| == |keys|
      decreases |rest|
    {
      var k :| k in rest;
      if k !in after {
        NamesSnoc(keys, k, before);
        InsertKeeps(before[k], out);
        InsertLength(before[k], out);
        keys := keys + [k];
        out := Insert(before[k], out);
      }
      rest := rest - {k};
    }
    assert (map k | k in before && k !in rest :: before[k]) == before;
    assert keys != [] ==> keys[0] in keys;
  }

  lemma NothingLost(before: Index)
    ensures NamesOf([], before) == [] && Ascending([])
  {
  }

  lemma {:induction false} InsertLength(x: string, s: seq<string>)
    ensures |Insert(x, s)| == |s| + 1
  {
    if s != [] && Less(x, s[|s| - 1]) {
      InsertLength(x, s[..|s| - 1]);
    }
  }

  // --- what the index tells apart

  lemma {:induction false} SlashSplits(a: string, b: string, c: string, d: string)
    requires a + "/" + b == c + "/" + d && '/' !in b && '/' !in d
    ensures a == c && b == d
  {
    var s := a + "/" + b;
    assert s[|a|] == '/' && s[|c|] == '/';
    assert forall i :: |a| < i < |s| ==> s[i] != '/' by {
      assert forall i :: |a| < i < |s| ==> s[i] == b[i - |a| - 1];
    }
    assert forall i :: |c| < i < |s| ==> s[i] != '/' by {
      assert forall i :: |c| < i < |s| ==> s[i] == d[i - |c| - 1];
    }
    assert s[..|a|] == a && s[..|c|] == c && s[|a| + 1..] == b && s[|c| + 1..] == d;
  }

  /** The key tells the node, the field and, as far as the digest does, the value. */
  lemma KeyTells(id: string, e: Entry, id': string, e': Entry, hash: string -> string)
    requires Digest(hash) && '/' !in e.field && '/' !in e'.field
    ensures Key(id, e, hash) == Key(id', e', hash) <==> id == id' && e.field == e'.field && hash(e.value) == hash(e'.value)
  {
    if Key(id, e, hash) == Key(id', e', hash) {
      SlashSplits(id + "/" + e.field, hash(e.value), id' + "/" + e'.field, hash(e'.value));
      SlashSplits(id, e.field, id', e'.field);
    }
  }

  lemma NamesHaveNoSlash()
    ensures '/' !in "field0" && '/' !in "signature" && '/' !in "encrypted" && '/' !in "redacted" && '/' !in "details"
  {
  }

  lemma {:induction false} FieldsHaveNoSlash(b: Body, e: Entry)
    requires e in Entries(b)
    ensures '/' !in e.field
  {
    NamesHaveNoSlash();
    hide RevisionEntries;
    var es := Entries(b);
    var i :| 0 <= i < |es| && es[i] == e;
    assert e.field in {"field0", "signature", "encrypted", "redacted", "details"};
  }

  lemma IndexHolds(nodes: seq<Node>, id: string, e: Entry, hash: string -> string)
    requires Digest(hash) && e.value != "" && '/' !in e.field
    requires forall v :: Held(nodes, v) && hash(v) == hash(e.value) ==> v == e.value
    ensures Indexes(Key(id, e, hash), nodes, hash) <==> Holds(nodes, id, e)
  {
    hide Digest, Key, Entries;
    var k := Key(id, e, hash);
    if Indexes(k, nodes, hash) {
      var r :| 0 <= r < |nodes| && IndexesNode(k, nodes[r], hash);
      var es := Entries(nodes[r].body);
      var i :| 0 <= i < |es| && es[i].value != "" && k == Key(nodes[r].id, es[i], hash);
      FieldsHaveNoSlash(nodes[r].body, es[i]);
      KeyTells(id, e, nodes[r].id, es[i], hash);
      assert Holds(nodes, nodes[r].id, es[i]);
      assert Held(nodes, es[i].value);
    }
    if Holds(nodes, id, e) {
      var r :| 0 <= r < |nodes| && nodes[r].id == id && e in Entries(nodes[r].body);
      var es := Entries(nodes[r].body);
      var i :| 0 <= i < |es| && es[i] == e;
      assert IndexesNode(k, nodes[r], hash);
    }
  }

  /** Nothing is missing exactly when every value held before is held after, unless two of the values held collide. */
  lemma MissingMeansLost(before: Index, after: Index, a: seq<Node>, b: seq<Node>, hash: string -> string)
    requires Digest(hash) && NoCollision(hash, a, b) && IndexOf(before, a, hash) && IndexOf(after, b, hash)
    ensures before.Keys <= after.Keys <==> forall id, e :: Holds(a, id, e) ==> Holds(b, id, e)
  {
    hide Digest, Key, Entries;
    if before.Keys <= after.Keys {
      forall id, e | Holds(a, id, e) ensures Holds(b, id, e) {
        var r :| 0 <= r < |a| && a[r].id == id && e in Entries(a[r].body);
        FieldsHaveNoSlash(a[r].body, e);
        assert Held(a, e.value);
        IndexHolds(a, id, e, hash);
        IndexHolds(b, id, e, hash);
        assert Key(id, e, hash) in before;
      }
    }
    if forall id, e :: Holds(a, id, e) ==> Holds(b, id, e) {
      forall k | k in before ensures k in after {
        var r :| 0 <= r < |a| && IndexesNode(k, a[r], hash);
        var es := Entries(a[r].body);
        var i :| 0 <= i < |es| && es[i].value != "" && k == Key(a[r].id, es[i], hash);
        assert Holds(a, a[r].id, es[i]);
        assert Held(a, es[i].value);
        FieldsHaveNoSlash(a[r].body, es[i]);
        IndexHolds(b, a[r].id, es[i], hash);
      }
    }
  }

  /** Taking calls off the wire and adding nodes loses nothing. */
  lemma LaterLosesNothing(before: Index, after: Index, a: seq<Node>, b: seq<Node>, hash: string -> string)
    requires IndexOf(before, a, hash) && IndexOf(after, b, hash) && Later(a, b)
    ensures before.Keys <= after.Keys
  {
    hide Key, Entries;
    forall k | k in before ensures k in after {
      var r :| 0 <= r < |a| && IndexesNode(k, a[r], hash);
      assert IndexesNode(k, b[r], hash);
    }
  }

  lemma EntryMeans(h: seq<StreamStrings.Revision>, e: Entry)
    ensures e in RevisionEntries(h) <==> e.field == "field0" && exists i :: 0 <= i < |h| && h[i].value == e.value
  {
    var es := RevisionEntries(h);
    if e in es {
      var i :| 0 <= i < |es| && es[i] == e;
      assert h[i].value == e.value;
    }
    if e.field == "field0" && exists i :: 0 <= i < |h| && h[i].value == e.value {
      var i :| 0 <= i < |h| && h[i].value == e.value;
      assert es[i] == e;
    }
  }

  /** Nor does a write to a stream field, as long as a finished field is only finished with its own value again. */
  lemma WriteLosesNothing(f: Field, w: StreamStrings.Write, e: Entry)
    requires w.Finish? && f.done ==> w.value == f.s
    requires w.Append? ==> f.done || w.delta == ""
    requires e.value != "" && e in RevisionEntries(f.History())
    ensures e in RevisionEntries(StreamStrings.Apply(f, w).History())
  {
    hide RevisionEntries;
    var h, g := f.History(), StreamStrings.Apply(f, w);
    EntryMeans(h, e);
    EntryMeans(g.History(), e);
    var i :| 0 <= i < |h| && h[i].value == e.value;
    StreamStrings.HistoryGrows(f, w);
    if i < |f.revs| {
      assert g.History()[i] == h[i];
    } else if |g.revs| > |f.revs| {
      assert g.History()[|f.revs|].value == f.Current();
    } else {
      assert g.History()[|g.revs|].value == g.Current();
    }
  }
}
