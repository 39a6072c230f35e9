/** Mounted providers, and which of them serves a path (vfs/provider.go). */
module Registry {
  import opened Wrappers
  import opened ByteOrder
  import M = Messages

  // --- paths

  function Lower(s: string): (r: string)
    ensures |r| == |s|
    ensures forall i :: 0 <= i < |s| ==> r[i] == (if 'A' <= s[i] <= 'Z' then (s[i] as int + 32) as char else s[i])
  {
    if s == "" then "" else Lower(s[..|s| - 1]) + [var c := s[|s| - 1]; if 'A' <= c <= 'Z' then (c as int + 32) as char else c]
  }

  function TrimFront(s: string, cut: char -> bool): string {
    if s != "" && cut(s[0]) then TrimFront(s[1..], cut) else s
  }

  function TrimBack(s: string, cut: char -> bool): string {
    if s != "" && cut(s[|s| - 1]) then TrimBack(s[..|s| - 1], cut) else s
  }

  function Trim(s: string, cut: char -> bool): string {
    TrimBack(TrimFront(s, cut), cut)
  }

  function IsSlash(c: char): bool {
    c == '/'
  }

  function IsBlank(c: char): bool {
    M.IsSpace(c)
  }

  /** Two slashes stand side by side. */
  predicate Doubled(s: string) {
    exists i :: 0 <= i < |s| - 1 && s[i] == '/' && s[i + 1] == '/'
  }

  /** Every pair of slashes, left to right, becomes one. */
  function Halved(s: string): string {
    if |s| < 2 then s
    else if s[0] == '/' && s[1] == '/' then "/" + Halved(s[2..])
    else [s[0]] + Halved(s[1..])
  }

  /** Every run of slashes is one slash. */
  function Squeezed(s: string): string {
    if |s| < 2 then s
    else if s[0] == '/' && s[1] == '/' then Squeezed(s[1..])
    else [s[0]] + Squeezed(s[1..])
  }

  lemma SqueezedFront(c: char, s: string)
    ensures Squeezed([c] + s) == if s != "" && c == '/' && s[0] == '/' then Squeezed(s) else [c] + Squeezed(s)
  {
    assert ([c] + s)[1..] == s;
  }

  lemma {:induction false} HalvedSqueezes(s: string)
    ensures Squeezed(Halved(s)) == Squeezed(s)
    ensures s != "" ==> Halved(s) != "" && Halved(s)[0] == s[0]
    ensures Doubled(s) ==> |Halved(s)| < |s|
    ensures |Halved(s)| <= |s|
    decreases |s|
  {
    if |s| >= 2 {
      if s[0] == '/' && s[1] == '/' {
        HalvedSqueezes(s[2..]);
        SqueezedFront('/', Halved(s[2..]));
        SqueezedFront('/', s[2..]);
        assert s[1..] == ['/'] + s[2..];
      } else {
        HalvedSqueezes(s[1..]);
        SqueezedFront(s[0], Halved(s[1..]));
        DoubledRest(s);
      }
    }
  }

  lemma DoubledRest(s: string)
    requires |s| >= 2 && !(s[0] == '/' && s[1] == '/')
    ensures Doubled(s) ==> Doubled(s[1..])
  {
    if Doubled(s) {
      var i :| 0 <= i < |s| - 1 && s[i] == '/' && s[i + 1] == '/';
      assert s[1..][i - 1] == '/' && s[1..][i] == '/';
    }
  }

  lemma {:induction false} SqueezedAlready(s: string)
    requires !Doubled(s)
    ensures Squeezed(s) == s
  {
    if |s| >= 2 {
      forall i | 0 <= i < |s[1..]| - 1 ensures !(s[1..][i] == '/' && s[1..][i + 1] == '/') {
        assert s[1..][i] == s[i + 1] && s[1..][i + 1] == s[i + 2];
      }
      SqueezedAlready(s[1..]);
      assert s == [s[0]] + s[1..];
    }
  }

  function Normal(p: string): string {
    Squeezed("/" + Trim(Trim(p, IsBlank), IsSlash))
  }

  method NormalizePrefix(raw: string) returns (p: string)
    ensures p == Normal(raw)
  {
    p := "/" + Trim(Trim(raw, IsBlank), IsSlash);
    if p == "/" {
      return;
    }
    while Doubled(p)
      invariant Squeezed(p) == Normal(raw)
      decreases |p|
    {
      HalvedSqueezes(p);
      p := Halved(p);
    }
    SqueezedAlready(p);
  }

  /** The canonical form: a slash, and then segments with one slash between them and none at the end. */
  predicate Canonical(p: string) {
    p != "" && p[0] == '/' && !Doubled(p) && (p != "/" ==> p[|p| - 1] != '/')
  }

  lemma {:induction false} SqueezedShape(s: string)
    ensures !Doubled(Squeezed(s))
    ensures s != "" ==> Squeezed(s) != "" && Squeezed(s)[0] == s[0] && Squeezed(s)[|Squeezed(s)| - 1] == s[|s| - 1]
  {
    if |s| >= 2 {
      SqueezedShape(s[1..]);
      var t := Squeezed(s[1..]);
      if !(s[0] == '/' && s[1] == '/') {
        forall i | 0 <= i < |[s[0]] + t| - 1 ensures !(([s[0]] + t)[i] == '/' && ([s[0]] + t)[i + 1] == '/') {
          if i > 0 {
            assert ([s[0]] + t)[i] == t[i - 1] && ([s[0]] + t)[i + 1] == t[i];
          }
        }
      }
    }
  }

  lemma {:induction false} TrimBackEnds(s: string, cut: char -> bool)
    ensures TrimBack(s, cut) == "" || !cut(TrimBack(s, cut)[|TrimBack(s, cut)| - 1])
  {
    if s != "" && cut(s[|s| - 1]) {
      TrimBackEnds(s[..|s| - 1], cut);
    }
  }

  lemma NormalIsCanonical(p: string)
    ensures Canonical(Normal(p))
  {
    var inner := Trim(Trim(p, IsBlank), IsSlash);
    TrimBackEnds(TrimFront(Trim(p, IsBlank), IsSlash), IsSlash);
    SqueezedShape("/" + inner);
    if inner == "" {
      assert Squeezed("/") == "/";
    }
  }

  lemma TrimNothing(s: string, cut: char -> bool)
    requires s == "" || (!cut(s[0]) && !cut(s[|s| - 1]))
    ensures Trim(s, cut) == s
  {
  }

  lemma {:induction false} TrimBackBelow(s: string, cut: char -> bool)
    ensures TrimBack(s, cut) <= s
    ensures s != "" && !cut(s[0]) ==> TrimBack(s, cut) != "" && TrimBack(s, cut)[0] == s[0]
    ensures s != "" && cut(s[|s| - 1]) ==> |TrimBack(s, cut)| < |s|
    ensures s != "" && !cut(s[|s| - 1]) ==> TrimBack(s, cut) == s
  {
    if s != "" && cut(s[|s| - 1]) {
      TrimBackBelow(s[..|s| - 1], cut);
    }
  }

  /** Normalizing a canonical path that does not end in white space changes nothing. */
  lemma CanonicalStays(p: string)
    requires Canonical(p) && !IsBlank(p[|p| - 1])
    ensures Normal(p) == p
  {
    assert !IsBlank('/');
    TrimNothing(p, IsBlank);
    if p == "/" {
      assert TrimFront("/", IsSlash) == TrimFront("", IsSlash);
      assert Squeezed("/") == "/";
    } else {
      assert p[1] != '/';
      assert TrimFront(p, IsSlash) == p[1..];
      assert p[1..][|p| - 2] != '/';
      assert "/" + p[1..] == p;
      SqueezedAlready(p);
    }
  }

  lemma LostBlank(p: string)
    requires Canonical(p) && IsBlank(p[|p| - 1])
    ensures |Normal(p)| < |p|
  {
    assert !IsBlank('/');
    assert TrimFront(p, IsBlank) == p;
    TrimBackBelow(p, IsBlank);
    var t := TrimBack(p, IsBlank);
    assert t[0] == '/';
    assert TrimFront(t, IsSlash) == TrimFront(t[1..], IsSlash);
    TrimFrontBelow(t[1..], IsSlash);
    TrimBackBelow(TrimFront(t, IsSlash), IsSlash);
    SqueezedBelow("/" + Trim(t, IsSlash));
  }

  lemma {:induction false} TrimFrontBelow(s: string, cut: char -> bool)
    ensures |TrimFront(s, cut)| <= |s|
  {
    if s != "" && cut(s[0]) {
      TrimFrontBelow(s[1..], cut);
    }
  }

  lemma {:induction false} SqueezedBelow(s: string)
    ensures |Squeezed(s)| <= |s|
  {
    if |s| >= 2 {
      SqueezedBelow(s[1..]);
    }
  }

  predicate EndsBlank(p: string) {
    p != "" && IsBlank(p[|p| - 1])
  }

  /** The last character that is left of p without the white space around it, and then without the slashes around that,
      is white space. */
  predicate LeavesBlank(p: string) {
    EndsBlank(Trim(Trim(p, IsBlank), IsSlash))
  }

  lemma NormalEnds(p: string)
    ensures EndsBlank(Normal(p)) <==> LeavesBlank(p)
  {
    hide Trim, Squeezed;
    var inner := Trim(Trim(p, IsBlank), IsSlash);
    SqueezedShape("/" + inner);
    assert !IsBlank('/');
    if inner != "" {
      assert ("/" + inner)[|inner|] == inner[|inner| - 1];
    }
  }

  /** Normalizing twice is normalizing once, exactly when trimming leaves no white space at the end. */
  lemma NormalAgain(p: string)
    ensures Normal(Normal(p)) == Normal(p) <==> !LeavesBlank(p)
  {
    hide Normal, IsBlank, LeavesBlank;
    NormalIsCanonical(p);
    NormalEnds(p);
    if EndsBlank(Normal(p)) {
      LostBlank(Normal(p));
    } else {
      CanonicalStays(Normal(p));
    }
  }

  /** A slash after white space: the path changes again. */
  lemma NormalTwiceDiffers()
    ensures LeavesBlank(['/', 'a', ' ', '/']) && Normal(Normal(['/', 'a', ' ', '/'])) != Normal(['/', 'a', ' ', '/'])
  {
    hide Normal;
    var p: string := ['/', 'a', ' ', '/'];
    assert p[..3] == ['/', 'a', ' '] && p[1..] == ['a', ' ', '/'] && ['a', ' ', '/'][..2] == ['a', ' '];
    assert Trim(p, IsBlank) == p;
    assert TrimFront(p, IsSlash) == TrimFront(['a', ' ', '/'], IsSlash) == ['a', ' ', '/'];
    assert TrimBack(['a', ' ', '/'], IsSlash) == TrimBack(['a', ' '], IsSlash) == ['a', ' '];
    NormalAgain(p);
  }

  // --- depth and order

  function Slashes(p: string): nat {
    if p == "" then 0 else Slashes(p[..|p| - 1]) + if p[|p| - 1] == '/' then 1 else 0
  }

  function Depth(prefix: string): nat {
    if prefix == "/" then 0 else Slashes(prefix) + 1
  }

  datatype Mount = Mount(prefix: string, displayAs: string, provider: nat)

  /** The deeper first, and in byte order at the same depth. */
  predicate Before(a: Mount, b: Mount) {
    Depth(a.prefix) > Depth(b.prefix) || (Depth(a.prefix) == Depth(b.prefix) && Less(a.prefix, b.prefix))
  }

  lemma BeforeOrder(a: Mount, b: Mount)
    ensures a.prefix == b.prefix || Before(a, b) || Before(b, a)
    ensures !(Before(a, b) && Before(b, a)) && !Before(a, a)
  {
    LessOrder(a.prefix, b.prefix);
    LessSelf(a.prefix);
  }

  lemma BeforeTrans(a: Mount, b: Mount, c: Mount)
    requires Before(a, b) && Before(b, c)
    ensures Before(a, c)
  {
    if Depth(a.prefix) == Depth(b.prefix) == Depth(c.prefix) {
      LessTrans(a.prefix, b.prefix, c.prefix);
    }
  }

  predicate Ordered(ms: seq<Mount>) {
    forall i, j :: 0 <= i < j < |ms| ==> Before(ms[i], ms[j])
  }

  predicate Distinct(ms: seq<Mount>) {
    forall i, j :: 0 <= i < j < |ms| ==> ms[i].prefix != ms[j].prefix
  }

  // --- the registry

  lemma SwapSame(s: seq<Mount>, j: nat)
    requires 0 < j < |s|
    ensures multiset(s[j := s[j - 1]][j - 1 := s[j]]) == multiset(s)
  {
  }

  /** Sorted but for the element at j, which still has to move towards the front. */
  predicate AllBut(s: seq<Mount>, n: nat, j: nat)
    requires j < n <= |s|
  {
    && (forall a, b :: 0 <= a < b < n && a != j && b != j ==> Before(s[a], s[b]))
    && (forall b :: j < b < n ==> Before(s[j], s[b]))
  }

  lemma SwapKeeps(s: seq<Mount>, n: nat, j: nat)
    requires 0 < j < n <= |s| && AllBut(s, n, j) && Before(s[j], s[j - 1])
    ensures AllBut(s[j := s[j - 1]][j - 1 := s[j]], n, j - 1)
  {
    hide Before;
    var t := s[j := s[j - 1]][j - 1 := s[j]];
    forall a, b | 0 <= a < b < n && a != j - 1 && b != j - 1 ensures Before(t[a], t[b]) {
    }
  }

  lemma StaysOrdered(s: seq<Mount>, n: nat, j: nat)
    requires j < n <= |s| && AllBut(s, n, j) && (j > 0 ==> Before(s[j - 1], s[j]))
    ensures Ordered(s[..n])
  {
    hide Before;
    forall a, b | 0 <= a < b < n ensures Before(s[a], s[b]) {
      if b == j && a < j - 1 {
        BeforeTrans(s[a], s[j - 1], s[j]);
      }
    }
  }

  lemma DistinctSame(a: seq<Mount>, b: seq<Mount>)
    requires Distinct(a) && multiset(a) == multiset(b)
    ensures Distinct(b)
  {
    forall i, j | 0 <= i < j < |b| ensures b[i].prefix != b[j].prefix {
      TwiceIn(b, i, j);
      InBoth(a, b, b[i]);
      InBoth(a, b, b[j]);
      if b[i] == b[j] {
        OnlyOnce(a, b[i]);
      }
    }
  }

  lemma InBoth(a: seq<Mount>, b: seq<Mount>, m: Mount)
    requires multiset(a) == multiset(b) && m in b
    ensures m in a
  {
    assert m in multiset(b);
  }

  lemma TwiceIn(b: seq<Mount>, i: nat, j: nat)
    requires i < j < |b|
    ensures b[i] == b[j] ==> multiset(b)[b[i]] >= 2
  {
    assert b == b[..i] + [b[i]] + b[i + 1..j] + [b[j]] + b[j + 1..];
  }

  lemma {:induction false} OnlyOnce(a: seq<Mount>, m: Mount)
    requires Distinct(a)
    ensures multiset(a)[m] <= 1
  {
    if a != [] {
      var init, last := a[..|a| - 1], a[|a| - 1];
      assert a == init + [last];
      OnlyOnce(init, m);
      if last == m {
        assert m !in init;
      }
    }
  }

  /** Sorts by swapping neighbours, deepest first. */
  method RegistrySort(ms: seq<Mount>) returns (s: seq<Mount>)
    requires Distinct(ms)
    ensures Ordered(s) && multiset(s) == multiset(ms)
  {
    hide Before, Ordered, Distinct, AllBut;
    s := ms;
    var i := 1;
    OrderedNone(s);
    while i < |s|
      invariant 1 <= i && (i <= |s| || |s| <= 1) && multiset(s) == multiset(ms) && Ordered(s[..if i <= |s| then i else |s|])
    {
      DistinctSame(ms, s);
      s := MoveUp(s, i);
      i := i + 1;
    }
    assert s[..|s|] == s;
  }

  /** Moves the element at i to its place among the first i + 1. */
  method MoveUp(ms: seq<Mount>, i: nat) returns (s: seq<Mount>)
    requires Distinct(ms)
    requires 0 < i < |ms| && Ordered(ms[..i])
    ensures |s| == |ms| && multiset(s) == multiset(ms) && Ordered(s[..i + 1])
  {
    hide Before, Ordered, Distinct, AllBut;
    s := ms;
    var j := i;
    FrontOrdered(s, i);
    while j > 0
      invariant j <= i && |s| == |ms| && multiset(s) == multiset(ms) && AllBut(s, i + 1, j)
      decreases j
    {
      DistinctSame(ms, s);
      DifferAt(s, j);
      BeforeOrder(s[j], s[j - 1]);
      if Precedes(s[j], s[j - 1]) {
        SwapSame(s, j);
        SwapKeeps(s, i + 1, j);
        s := s[j := s[j - 1]][j - 1 := s[j]];
      } else {
        break;
      }
      j := j - 1;
    }
    StaysOrdered(s, i + 1, j);
  }

  lemma DifferAt(s: seq<Mount>, j: nat)
    requires Distinct(s) && 0 < j < |s|
    ensures s[j - 1].prefix != s[j].prefix
  {
  }

  /** The sort's own test. */
  predicate Precedes(a: Mount, b: Mount)
    ensures Precedes(a, b) <==> Before(a, b)
  {
    if Depth(a.prefix) > Depth(b.prefix) then true
    else Depth(a.prefix) == Depth(b.prefix) && Less(a.prefix, b.prefix)
  }

  lemma OrderedNone(s: seq<Mount>)
    ensures |s| <= 1 ==> Ordered(s)
    ensures |s| >= 1 ==> Ordered(s[..1])
  {
  }

  lemma FrontOrdered(s: seq<Mount>, i: nat)
    requires i < |s| && Ordered(s[..i])
    ensures AllBut(s, i + 1, i)
  {
    forall a, b | 0 <= a < b < i ensures Before(s[a], s[b]) {
      assert Before(s[..i][a], s[..i][b]);
    }
  }

  /** A mount serves its own path and everything below it. */
  predicate Serves(prefix: string, p: string) {
    prefix == "/" || p == prefix || prefix + "/" <= p
  }

  lemma {:induction false} SlashesConcat(a: string, b: string)
    ensures Slashes(a + b) == Slashes(a) + Slashes(b)
  {
    if b == "" {
      assert a + b == a;
    } else {
      SlashesConcat(a, b[..|b| - 1]);
      assert (a + b)[..|a + b| - 1] == a + b[..|b| - 1];
    }
  }

  lemma SlashFirst(p: string)
    requires p != "" && p[0] == '/'
    ensures Slashes(p) >= 1
  {
    SlashesConcat("/", p[1..]);
    assert "/" + p[1..] == p;
    assert Slashes("/") == Slashes("") + 1;
  }

  lemma DeeperBelow(a: string, b: string, p: string)
    requires Canonical(a) && Canonical(b) && Serves(a, p) && Serves(b, p) && |a| < |b|
    ensures Depth(a) < Depth(b)
  {
    SlashFirst(b);
    if a != "/" {
      assert b <= p && a + "/" <= p;
      assert b[..|a|] == a && b[|a|] == '/';
      var rest := b[|a|..];
      assert b == a + rest;
      SlashesConcat(a, rest);
      SlashFirst(rest);
    }
  }

  lemma SameLengthSame(a: string, b: string, p: string)
    requires Canonical(a) && Canonical(b) && Serves(a, p) && Serves(b, p) && |a| == |b|
    ensures a == b
  {
    if |a| == 1 {
      assert a == "/" && b == "/";
    } else {
      assert a == p[..|a|] && b == p[..|a|];
    }
  }

  /** Two mounts that both serve a path are not equally deep. */
  lemma ServersDiffer(a: string, b: string, p: string)
    requires Canonical(a) && Canonical(b) && Serves(a, p) && Serves(b, p)
    ensures a == b <==> Depth(a) == Depth(b)
  {
    if |a| < |b| {
      DeeperBelow(a, b, p);
    } else if |b| < |a| {
      DeeperBelow(b, a, p);
    } else {
      SameLengthSame(a, b, p);
    }
  }

  predicate AllCanonical(ms: seq<Mount>) {
    forall i :: 0 <= i < |ms| ==> Canonical(ms[i].prefix)
  }

  /** The list and the map hold the same mounts, each under its own prefix. */
  ghost predicate Agrees(ms: seq<Mount>, byKey: map<string, Mount>) {
    && (forall i :: 0 <= i < |ms| ==> ms[i].prefix in byKey && byKey[ms[i].prefix] == ms[i])
    && (forall k :: k in byKey ==> byKey[k].prefix == k && byKey[k] in ms)
  }

  class Mounts {
    var mounts: seq<Mount>
    var byKey: map<string, Mount>

    ghost predicate Valid()
      reads this
    {
      Ordered(mounts) && Distinct(mounts) && AllCanonical(mounts) && Agrees(mounts, byKey)
    }

    constructor ()
      ensures Valid() && mounts == []
    {
      mounts, byKey := [], map[];
    }

    /** Mounts a provider; a prefix that is taken, whatever its case, is refused. */
    method Add(prefix: string, provider: nat) returns (duplicate: bool)
      requires Valid()
      modifies this
      ensures Valid() && duplicate == (Lower(Normal(prefix)) in old(byKey))
      ensures duplicate ==> mounts == old(mounts) && byKey == old(byKey)
      ensures !duplicate ==>
                var m := Mount(Lower(Normal(prefix)), Normal(prefix), provider);
                byKey == old(byKey)[m.prefix := m] && multiset(mounts) == multiset(old(mounts) + [m])
    {
      hide Ordered, Canonical, Normal;
      var normalized := NormalizePrefix(prefix);
      var key := Lower(normalized);
      if key in byKey {
        return true;
      }
      var m := Mount(key, normalized, provider);
      NormalIsCanonical(prefix);
      LowerCanonical(normalized);
      AddAgrees(mounts, byKey, m);
      byKey := byKey[key := m];
      var more := mounts + [m];
      var sorted := RegistrySort(more);
      DistinctSame(more, sorted);
      SameAgrees(more, sorted, byKey);
      SameCanonical(more, sorted);
      mounts := sorted;
      return false;
    }

    /** Takes a mount away; any other prefix changes nothing. */
    method Remove(prefix: string)
      requires Valid()
      modifies this
      ensures Valid() && byKey == old(byKey) - {Lower(Normal(prefix))}
      ensures forall m :: m in mounts <==> m in old(mounts) && m.prefix != Lower(Normal(prefix))
    {
      hide Canonical, Normal, Before;
      var normalized := NormalizePrefix(prefix);
      var key := Lower(normalized);
      if key !in byKey {
        NotThere(mounts, byKey, key);
        return;
      }
      ghost var at: nat :| at < |mounts| && mounts[at] == byKey[key];
      byKey := byKey - {key};
      for i := 0 to |mounts|
        invariant mounts == old(mounts) && byKey == old(byKey) - {key}
        invariant forall k :: 0 <= k < i ==> mounts[k].prefix != key
      {
        if mounts[i].prefix == key {
          WithoutOne(mounts, old(byKey), i);
          mounts := mounts[..i] + mounts[i + 1..];
          return;
        }
      }
    }

    /** The one mount that serves the path most specifically. */
    method Resolve(raw: string) returns (r: Option<Mount>)
      requires Valid()
      ensures var p := Lower(Normal(raw));
              && (r.None? <==> forall i :: 0 <= i < |mounts| ==> !Serves(mounts[i].prefix, p))
              && (r.Some? ==> r.value in mounts && Serves(r.value.prefix, p))
              && (r.Some? ==> forall m :: m in mounts && m != r.value && Serves(m.prefix, p) ==> Depth(m.prefix) < Depth(r.value.prefix))
    {
      hide Canonical, Normal, Depth, Less;
      var normalized := NormalizePrefix(raw);
      var p := Lower(normalized);
      for i := 0 to |mounts|
        invariant forall k :: 0 <= k < i ==> !Serves(mounts[k].prefix, p)
      {
        var m := mounts[i];
        if m.prefix == "/" || p == m.prefix || m.prefix + "/" <= p {
          forall n | n in mounts && n != m && Serves(n.prefix, p) ensures Depth(n.prefix) < Depth(m.prefix) {
            var k :| 0 <= k < |mounts| && mounts[k] == n;
            assert k > i;
            assert Before(m, n);
            ServersDiffer(m.prefix, n.prefix, p);
          }
          return Some(m);
        }
      }
      return None;
    }
  }

  lemma LowerCanonical(p: string)
    requires Canonical(p)
    ensures Canonical(Lower(p))
  {
    forall i | 0 <= i < |p| ensures Lower(p)[i] == '/' <==> p[i] == '/' {
    }
    forall i | 0 <= i < |p| - 1 ensures !(Lower(p)[i] == '/' && Lower(p)[i + 1] == '/') {
      assert !(p[i] == '/' && p[i + 1] == '/');
    }
  }

  lemma AddAgrees(ms: seq<Mount>, byKey: map<string, Mount>, m: Mount)
    requires Agrees(ms, byKey) && Distinct(ms) && AllCanonical(ms) && m.prefix !in byKey && Canonical(m.prefix)
    ensures Agrees(ms + [m], byKey[m.prefix := m]) && Distinct(ms + [m]) && AllCanonical(ms + [m])
  {
    assert (ms + [m])[|ms|] == m;
    forall k | k in byKey ensures byKey[k] in ms + [m] {
    }
  }

  lemma SameAgrees(a: seq<Mount>, b: seq<Mount>, byKey: map<string, Mount>)
    requires Agrees(a, byKey) && multiset(a) == multiset(b)
    ensures Agrees(b, byKey)
  {
    forall i | 0 <= i < |b| ensures b[i] in a {
      InBoth(a, b, b[i]);
    }
    forall k | k in byKey ensures byKey[k] in b {
      InBoth(b, a, byKey[k]);
    }
  }

  lemma SameCanonical(a: seq<Mount>, b: seq<Mount>)
    requires AllCanonical(a) && multiset(a) == multiset(b)
    ensures AllCanonical(b)
  {
    forall i | 0 <= i < |b| ensures Canonical(b[i].prefix) {
      InBoth(a, b, b[i]);
    }
  }

  lemma NotThere(ms: seq<Mount>, byKey: map<string, Mount>, key: string)
    requires Agrees(ms, byKey) && key !in byKey
    ensures byKey - {key} == byKey && forall m :: m in ms ==> m.prefix != key
  {
  }

  function Without(ms: seq<Mount>, i: nat): (rest: seq<Mount>)
    requires i < |ms|
    ensures |rest| == |ms| - 1 && forall k :: 0 <= k < |rest| ==> rest[k] == if k < i then ms[k] else ms[k + 1]
  {
    ms[..i] + ms[i + 1..]
  }

  lemma WithoutIn(ms: seq<Mount>, i: nat)
    requires Distinct(ms) && i < |ms|
    ensures forall m :: m in Without(ms, i) <==> m in ms && m.prefix != ms[i].prefix
  {
    var rest := Without(ms, i);
    forall m | m in ms && m.prefix != ms[i].prefix ensures m in rest {
      var k :| 0 <= k < |ms| && ms[k] == m;
      assert rest[if k < i then k else k - 1] == m;
    }
    forall m | m in rest ensures m in ms && m.prefix != ms[i].prefix {
      var k :| 0 <= k < |rest| && rest[k] == m;
      assert m == ms[if k < i then k else k + 1];
    }
  }

  lemma WithoutOrdered(ms: seq<Mount>, i: nat)
    requires Distinct(ms) && Ordered(ms) && AllCanonical(ms) && i < |ms|
    ensures Distinct(Without(ms, i)) && Ordered(Without(ms, i)) && AllCanonical(Without(ms, i))
  {
    hide Canonical, Before;
  }

  lemma WithoutOne(ms: seq<Mount>, byKey: map<string, Mount>, i: nat)
    requires Agrees(ms, byKey) && Distinct(ms) && Ordered(ms) && AllCanonical(ms) && i < |ms|
    ensures var rest := ms[..i] + ms[i + 1..];
            && Agrees(rest, byKey - {ms[i].prefix}) && Distinct(rest) && Ordered(rest) && AllCanonical(rest)
            && forall m :: m in rest <==> m in ms && m.prefix != ms[i].prefix
  {
    hide Ordered, Distinct, AllCanonical;
    WithoutIn(ms, i);
    WithoutOrdered(ms, i);
    var rest := Without(ms, i);
    assert rest == ms[..i] + ms[i + 1..];
    forall k | 0 <= k < |rest| ensures rest[k].prefix in byKey - {ms[i].prefix} && byKey[rest[k].prefix] == rest[k] {
      assert rest[k] in rest;
    }
  }

  // --- segments

  /** The segments that are complete, and the one that is being read. */
  datatype Split = Split(done: seq<string>, part: string)

  function Flushed(t: Split): Split {
    if t.part == "" then t else Split(t.done + [t.part], "")
  }

  function Read(t: Split, c: char): Split {
    if c == '/' then Flushed(t) else t.(part := t.part + [c])
  }

  function ReadAll(t: Split, s: string): Split
    decreases |s|
  {
    if s == "" then t else ReadAll(Read(t, s[0]), s[1..])
  }

  const Nothing := Split([], "")

  /** What is between slashes, where there is anything. */
  function Segments(s: string): seq<string> {
    Flushed(ReadAll(Nothing, s)).done
  }

  lemma {:induction false} ReadConcat(t: Split, a: string, b: string)
    ensures ReadAll(t, a + b) == ReadAll(ReadAll(t, a), b)
    decreases |a|
  {
    if a == "" {
      assert a + b == b;
    } else {
      ReadConcat(Read(t, a[0]), a[1..], b);
      assert (a + b)[0] == a[0] && (a + b)[1..] == a[1..] + b;
    }
  }

  lemma {:induction false} ReadSqueezed(t: Split, s: string)
    ensures ReadAll(t, Squeezed(s)) == ReadAll(t, s)
    decreases |s|
  {
    if |s| >= 2 {
      if s[0] == '/' && s[1] == '/' {
        ReadSqueezed(t, s[1..]);
        assert Read(Read(t, '/'), '/') == Read(t, '/');
        assert s[1..][0] == '/' && s[1..][1..] == s[2..];
      } else {
        ReadSqueezed(Read(t, s[0]), s[1..]);
        assert ([s[0]] + Squeezed(s[1..]))[1..] == Squeezed(s[1..]);
      }
    }
  }

  lemma {:induction false} ReadTrimmedFront(t: Split, s: string)
    requires t.part == ""
    ensures ReadAll(t, TrimFront(s, IsSlash)) == ReadAll(t, s)
  {
    if s != "" && s[0] == '/' {
      ReadTrimmedFront(t, s[1..]);
    }
  }

  lemma {:induction false} ReadTrimmedBack(t: Split, s: string)
    ensures Flushed(ReadAll(t, TrimBack(s, IsSlash))) == Flushed(ReadAll(t, s))
  {
    if s != "" && s[|s| - 1] == '/' {
      var init := s[..|s| - 1];
      ReadTrimmedBack(t, init);
      assert s == init + ['/'];
      ReadConcat(t, init, ['/']);
      assert ReadAll(ReadAll(t, init), ['/']) == Flushed(ReadAll(t, init));
    }
  }

  /** Normalizing keeps every segment of the path, in order: it only takes white space off its ends. */
  lemma NormalKeeps(p: string)
    ensures Segments(Normal(p)) == Segments(Trim(p, IsBlank))
  {
    hide TrimFront, TrimBack, Squeezed;
    var t := Trim(p, IsBlank);
    var inner := Trim(t, IsSlash);
    ReadSqueezed(Nothing, "/" + inner);
    assert ("/" + inner)[1..] == inner;
    assert Read(Nothing, '/') == Nothing;
    ReadTrimmedBack(Nothing, TrimFront(t, IsSlash));
    ReadTrimmedFront(Nothing, t);
  }

  /** Segments with a slash before each. */
  function Glued(segments: seq<string>): string {
    if segments == [] then "" else Glued(segments[..|segments| - 1]) + "/" + segments[|segments| - 1]
  }

  lemma {:induction false} GluedConcat(a: seq<string>, b: seq<string>)
    ensures Glued(a + b) == Glued(a) + Glued(b)
  {
    if b == [] {
      assert a + b == a && Glued(a) + "" == Glued(a);
    } else {
      var init, last := b[..|b| - 1], b[|b| - 1];
      GluedConcat(a, init);
      assert (a + b)[..|a + b| - 1] == a + init;
      assert Glued(a) + Glued(init) + "/" + last == Glued(a) + (Glued(init) + "/" + last);
    }
  }

  lemma FrontNotDoubled(s: string)
    requires s != "" && !Doubled(s)
    ensures !Doubled(s[..|s| - 1])
  {
    var init := s[..|s| - 1];
    forall i | 0 <= i < |init| - 1 ensures !(init[i] == '/' && init[i + 1] == '/') {
      assert s[i] == init[i] && s[i + 1] == init[i + 1];
    }
  }

  /** A canonical path, or one up to a slash, is what was read of it. */
  lemma {:induction false} ReadBack(s: string)
    requires s != "" && s[0] == '/' && !Doubled(s)
    ensures var t := ReadAll(Nothing, s); s == Glued(t.done) + "/" + t.part && (t.part == "" <==> s[|s| - 1] == '/')
  {
    var init, c := s[..|s| - 1], s[|s| - 1];
    ReadConcat(Nothing, init, [c]);
    assert s == init + [c] && [c][1..] == "";
    if init == "" {
      assert s == "/" && ReadAll(Nothing, "") == Nothing;
      assert ReadAll(Nothing, "/") == Read(Nothing, '/') == Nothing;
      assert Glued([]) + "/" + "" == "/";
    } else {
      FrontNotDoubled(s);
      ReadBack(init);
      var t := ReadAll(Nothing, init);
      if c == '/' {
        assert s[|s| - 2] == init[|init| - 1];
        assert (t.done + [t.part])[..|t.done|] == t.done;
        assert Glued(t.done + [t.part]) == Glued(t.done) + "/" + t.part;
      } else {
        assert Glued(t.done) + "/" + (t.part + [c]) == Glued(t.done) + "/" + t.part + [c];
      }
    }
  }

  /** A canonical path is its segments. */
  lemma CanonicalIs(p: string)
    requires Canonical(p)
    ensures p == (if Segments(p) == [] then "/" else Glued(Segments(p)))
    ensures Segments(p) == [] <==> p == "/"
  {
    ReadBack(p);
    var t := ReadAll(Nothing, p);
    if p == "/" {
      assert p[1..] == "" && ReadAll(Nothing, "") == Nothing;
    } else {
      assert (t.done + [t.part])[..|t.done|] == t.done;
    }
  }

  lemma {:induction false} DoneGrows(t: Split, s: string)
    ensures t.done <= ReadAll(t, s).done
    decreases |s|
  {
    if s != "" {
      DoneGrows(Read(t, s[0]), s[1..]);
    }
  }

  lemma GluedBegins(segments: seq<string>)
    requires segments != []
    ensures "/" <= Glued(segments)
  {
    GluedConcat([segments[0]], segments[1..]);
    assert [segments[0]] + segments[1..] == segments;
    assert [segments[0]][..0] == [];
    assert Glued([segments[0]]) == "" + "/" + segments[0];
  }

  /** A mount serves exactly the paths whose segments begin with its own. */
  lemma ServesBySegments(prefix: string, p: string)
    requires Canonical(prefix) && Canonical(p)
    ensures Serves(prefix, p) <==> Segments(prefix) <= Segments(p)
  {
    hide Canonical, ReadAll, Glued;
    CanonicalIs(prefix);
    CanonicalIs(p);
    if prefix != "/" && prefix + "/" <= p {
      var rest := p[|prefix| + 1..];
      assert p == prefix + "/" + rest;
      ReadConcat(Nothing, prefix + "/", rest);
      ReadConcat(Nothing, prefix, "/");
      ReadSlash(ReadAll(Nothing, prefix));
      DoneGrows(ReadAll(Nothing, prefix + "/"), rest);
    }
    if prefix != "/" && Segments(prefix) <= Segments(p) {
      var a, b := Segments(prefix), Segments(p);
      var more := b[|a|..];
      assert a + more == b;
      GluedConcat(a, more);
      if more != [] {
        GluedBegins(more);
      } else {
        assert b == a;
      }
    }
  }

  lemma ReadSlash(t: Split)
    ensures ReadAll(t, "/") == Flushed(t)
  {
    assert "/"[1..] == "";
  }
}
