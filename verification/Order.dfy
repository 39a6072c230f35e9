/** The order of strings, byte by byte. */
module ByteOrder {

  /** Strings in byte order. */
  predicate Less(a: string, b: string) {
    b != "" && (a == "" || a[0] < b[0] || (a[0] == b[0] && Less(a[1..], b[1..])))
  }

  lemma {:induction false} LessOrder(a: string, b: string)
    ensures a == b || Less(a, b) || Less(b, a)
    ensures !(Less(a, b) && Less(b, a)) && !Less(a, a)
    decreases |a| + |b|
  {
    LessSelf(a);
    if a != "" && b != "" {
      LessOrder(a[1..], b[1..]);
      LessSelf(a[1..]);
      assert a == [a[0]] + a[1..] && b == [b[0]] + b[1..];
    }
  }

  lemma {:induction false} LessSelf(a: string)
    ensures !Less(a, a)
  {
    if a != "" {
      LessSelf(a[1..]);
    }
  }

  lemma {:induction false} LessTrans(a: string, b: string, c: string)
    requires Less(a, b) && Less(b, c)
    ensures Less(a, c)
  {
    if a != "" && a[0] == b[0] && b[0] == c[0] {
      LessTrans(a[1..], b[1..], c[1..]);
    }
  }

  /** Sorted, with equal strings side by side. */
  predicate Ascending(s: seq<string>) {
    forall i, j :: 0 <= i < j < |s| ==> !Less(s[j], s[i])
  }

  /** x behind everything that is not greater. */
  function Insert(x: string, s: seq<string>): seq<string> {
    if s == [] || !Less(x, s[|s| - 1]) then s + [x] else Insert(x, s[..|s| - 1]) + [s[|s| - 1]]
  }

  lemma NotLessTrans(a: string, b: string, c: string)
    requires !Less(b, a) && !Less(c, b)
    ensures !Less(c, a)
  {
    LessOrder(a, b);
    LessOrder(b, c);
    if Less(c, a) {
      if a == b || b == c {
        LessSelf(a);
      } else {
        LessTrans(a, b, c);
        LessOrder(a, c);
      }
    }
  }

  lemma {:induction false} InsertKeeps(x: string, s: seq<string>)
    requires Ascending(s)
    ensures Ascending(Insert(x, s)) && multiset(Insert(x, s)) == multiset(s) + multiset{x}
  {
    hide Less;
    if s != [] {
      var init, last := s[..|s| - 1], s[|s| - 1];
      assert s == init + [last];
      if Less(x, last) {
        InsertKeeps(x, init);
        LessOrder(x, last);
        AllBelow(Insert(x, init), init, x, last);
      } else {
        forall i | 0 <= i < |s| ensures !Less(x, s[i]) {
          if i < |s| - 1 {
            NotLessTrans(s[i], last, x);
          }
        }
      }
    }
  }

  /** What is inserted below the last stays below it. */
  lemma AllBelow(out: seq<string>, init: seq<string>, x: string, last: string)
    requires multiset(out) == multiset(init) + multiset{x} && !Less(last, x)
    requires forall i :: 0 <= i < |init| ==> !Less(last, init[i])
    ensures forall i :: 0 <= i < |out| ==> !Less(last, out[i])
  {
    hide Less;
    forall i | 0 <= i < |out| ensures !Less(last, out[i]) {
      assert out[i] in multiset(out);
      if out[i] != x {
        assert out[i] in multiset(init);
      }
    }
  }
}
