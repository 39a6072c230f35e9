/** Repeats of read-only tool output collapse into a short marker (internal/loop/dedup.go). */
module Dedup {
  import opened Decimals

  /** A tool's name and the digest of an output. */
  datatype Key = Key(tool: string, digest: string)

  /** The key as text: the name, a NUL, and a digest of 64 characters. */
  function Text(k: Key): string {
    k.tool + "\0" + k.digest
  }

  predicate WellFormed(k: Key) {
    |k.digest| == 64
  }

  /** The text tells the tool and the digest apart, whatever the name holds. */
  lemma TextTells(a: Key, b: Key)
    requires WellFormed(a) && WellFormed(b)
    ensures Text(a) == Text(b) <==> a == b
  {
    if Text(a) == Text(b) {
      var s := Text(a);
      assert s[|s| - 64..] == a.digest && s[|s| - 64..] == b.digest;
      assert s[..|s| - 65] == a.tool && s[..|s| - 65] == b.tool;
    }
  }

  /** The form of a digest: 64 characters. */
  ghost predicate Digest(hash: string -> string) {
    forall v :: |hash(v)| == 64
  }

  /** There are such digests. */
  lemma DigestExists() returns (hash: string -> string)
    ensures Digest(hash)
  {
    var zeros := seq(64, i => '0');
    hash := v => zeros;
  }

  const MaxEntries := 512
  const UnchangedPrefix := "[unchanged]"

  /** How a marker begins. */
  function MarkerHead(tool: string): string {
    UnchangedPrefix + " The output of " + tool
  }

  // Shortened.
  function Marker(tool: string, n: nat): (s: string)
    ensures MarkerHead(tool) <= s
  {
    MarkerHead(tool) + " repeats an earlier call (#" + Decimal(n) + ")."
  }

  predicate NoRepeats(keys: seq<string>) {
    forall i, j :: 0 <= i < j < |keys| ==> keys[i] != keys[j]
  }

  class OutputDeduper {
    const hash: string -> string
    var keys: seq<string>
    var seen: map<string, nat>

    /** The list and the map hold the same keys, each once, and at most MaxEntries of them. */
    ghost predicate Valid()
      reads this
    {
      SameKeys(keys, seen) && |keys| <= MaxEntries
    }

    constructor (hash: string -> string)
      ensures Valid() && keys == [] && this.hash == hash
    {
      this.hash := hash;
      keys, seen := [], map[];
    }

    function KeyOf(tool: string, content: string): string {
      Text(Key(tool, hash(content)))
    }

    /** Forgets everything: the window starts anew. */
    method Reset()
      modifies this
      ensures Valid() && keys == []
    {
      keys := [];
      seen := map[];
    }

    /** Whether Collapse looks at the output at all. */
    predicate Covers(tool: string, readonly: bool, isError: bool) {
      readonly && tool != "" && !isError
    }

    /** The content to record: the output itself the first time, a marker after that. The oldest key goes when there
        are too many. */
    method Collapse(tool: string, readonly: bool, output: string, isError: bool) returns (content: string, deduped: bool)
      requires Valid()
      modifies this
      ensures Valid()
      ensures !deduped ==> content == output
      ensures deduped == (Covers(tool, readonly, isError) && KeyOf(tool, output) in old(keys))
      ensures deduped ==> keys == old(keys) && content == Marker(tool, seen[KeyOf(tool, output)])
      ensures deduped ==> seen == old(seen)[KeyOf(tool, output) := old(seen)[KeyOf(tool, output)] + 1]
      ensures !Covers(tool, readonly, isError) ==> keys == old(keys) && seen == old(seen)
      ensures Covers(tool, readonly, isError) && !deduped ==>
                keys == Newest(old(keys) + [KeyOf(tool, output)]) && KeyOf(tool, output) in seen && seen[KeyOf(tool, output)] == 1
    {
      hide SameKeys, Marker, Text;
      if !readonly || tool == "" || isError {
        return output, false;
      }
      var key := KeyOf(tool, output);
      KeyIn(keys, seen, key);
      if key in seen {
        var next := seen[key] + 1;
        KeysCount(keys, seen, key, next);
        seen := seen[key := next];
        return Marker(tool, next), true;
      }
      KeysAdd(keys, seen, key);
      seen := seen[key := 1];
      keys := keys + [key];
      KeyIn(keys, seen, key);
      if |keys| > MaxEntries {
        KeysDrop(keys, seen);
        var evicted := keys[0];
        keys := keys[1..];
        seen := seen - {evicted};
      }
      return output, false;
    }
  }

  /** The newest MaxEntries keys. */
  function Newest(keys: seq<string>): seq<string> {
    if |keys| > MaxEntries then keys[|keys| - MaxEntries..] else keys
  }

  ghost predicate SameKeys(keys: seq<string>, seen: map<string, nat>) {
    NoRepeats(keys) && forall k :: k in keys <==> k in seen
  }

  lemma KeyIn(keys: seq<string>, seen: map<string, nat>, key: string)
    requires SameKeys(keys, seen)
    ensures key in keys <==> key in seen
  {
  }

  lemma KeysCount(keys: seq<string>, seen: map<string, nat>, key: string, n: nat)
    requires SameKeys(keys, seen) && key in seen
    ensures SameKeys(keys, seen[key := n])
  {
  }

  lemma KeysAdd(keys: seq<string>, seen: map<string, nat>, key: string)
    requires SameKeys(keys, seen) && key !in seen
    ensures SameKeys(keys + [key], seen[key := 1])
  {
  }

  lemma KeysDrop(keys: seq<string>, seen: map<string, nat>)
    requires SameKeys(keys, seen) && keys != []
    ensures SameKeys(keys[1..], seen - {keys[0]})
    ensures |keys| > 1 ==> keys[|keys| - 1] != keys[0]
  {
    forall k ensures k in keys[1..] <==> k in keys && k != keys[0] {
      assert keys == [keys[0]] + keys[1..];
    }
  }
}
