/** Sorting, and sums and counts over a sequence that do not depend on its order. */
module Sequences {

  // ----- concatenation -----

  function Concat<T>(parts: seq<seq<T>>): seq<T> {
    if |parts| == 0 then [] else Concat(parts[..|parts| - 1]) + parts[|parts| - 1]
  }

  lemma {:induction false} ConcatAppends<T>(parts: seq<seq<T>>, last: seq<T>)
    ensures Concat(parts + [last]) == Concat(parts) + last
  {
    assert (parts + [last])[..|parts|] == parts;
  }

  // ----- sorting -----

  ghost predicate Total<T(!new)>(leq: (T, T) -> bool) {
    forall x, y :: leq(x, y) || leq(y, x)
  }

  ghost predicate Transitive<T(!new)>(leq: (T, T) -> bool) {
    forall x, y, z :: leq(x, y) && leq(y, z) ==> leq(x, z)
  }

  ghost predicate SortedBy<T>(s: seq<T>, leq: (T, T) -> bool) {
    forall i, j | 0 <= i < j < |s| :: leq(s[i], s[j])
  }

  function Insert<T>(x: T, s: seq<T>, leq: (T, T) -> bool): seq<T> {
    if |s| == 0 || leq(x, s[0]) then [x] + s else [s[0]] + Insert(x, s[1..], leq)
  }

  function Sort<T>(s: seq<T>, leq: (T, T) -> bool): seq<T> {
    if |s| == 0 then [] else Insert(s[0], Sort(s[1..], leq), leq)
  }

  lemma {:induction false} InsertPermutes<T>(x: T, s: seq<T>, leq: (T, T) -> bool)
    ensures multiset(Insert(x, s, leq)) == multiset(s) + multiset{x}
  {
    if |s| > 0 && !leq(x, s[0]) {
      InsertPermutes(x, s[1..], leq);
      assert s == [s[0]] + s[1..];
    }
  }

  lemma {:induction false} SortPermutes<T>(s: seq<T>, leq: (T, T) -> bool)
    ensures multiset(Sort(s, leq)) == multiset(s) && |Sort(s, leq)| == |s|
  {
    if |s| > 0 {
      SortPermutes(s[1..], leq);
      InsertPermutes(s[0], Sort(s[1..], leq), leq);
      assert s == [s[0]] + s[1..];
    }
    assert |Sort(s, leq)| == |multiset(Sort(s, leq))| == |multiset(s)|;
  }

  lemma {:induction false} InsertSorts<T(!new)>(x: T, s: seq<T>, leq: (T, T) -> bool)
    requires Total(leq) && Transitive(leq) && SortedBy(s, leq)
    ensures SortedBy(Insert(x, s, leq), leq)
  {
    if |s| > 0 && !leq(x, s[0]) {
      InsertSorts(x, s[1..], leq);
      InsertPermutes(x, s[1..], leq);
      var rest := Insert(x, s[1..], leq);
      forall j | 0 <= j < |rest|
        ensures leq(s[0], rest[j])
      {
        assert rest[j] in multiset(rest);
        assert rest[j] == x || rest[j] in s[1..];
      }
    }
  }

  lemma {:induction false} SortSorts<T(!new)>(s: seq<T>, leq: (T, T) -> bool)
    requires Total(leq) && Transitive(leq)
    ensures SortedBy(Sort(s, leq), leq)
  {
    if |s| > 0 {
      SortSorts(s[1..], leq);
      InsertSorts(s[0], Sort(s[1..], leq), leq);
    }
  }

  lemma {:induction false} MultisetOfMiddle<T>(left: seq<T>, x: T, right: seq<T>)
    ensures multiset(left + right) == multiset(left + [x] + right) - multiset{x}
  {
  }

  /** Where the first element of `a` sits in a permutation of `a`. */
  lemma {:induction false} TakeOut<T>(a: seq<T>, b: seq<T>) returns (left: seq<T>, right: seq<T>)
    requires |a| > 0 && multiset(a) == multiset(b)
    ensures b == left + [a[0]] + right && multiset(a[1..]) == multiset(left + right)
  {
    assert a[0] in multiset(b);
    var k :| 0 <= k < |b| && b[k] == a[0];
    left, right := b[..k], b[k + 1..];
    Middle(b, k);
    MultisetOfMiddle(left, a[0], right);
    MultisetTail(a);
  }

  lemma {:induction false} Middle<T>(s: seq<T>, k: nat)
    requires k < |s|
    ensures s == s[..k] + [s[k]] + s[k + 1..]
  {
  }

  lemma {:induction false} MultisetTail<T>(s: seq<T>)
    requires |s| > 0
    ensures multiset(s[1..]) == multiset(s) - multiset{s[0]}
  {
    assert s == [s[0]] + s[1..];
  }

  // ----- sums -----

  function SumOf<T>(f: T -> real, s: seq<T>): real {
    if |s| == 0 then 0.0 else f(s[0]) + SumOf(f, s[1..])
  }

  lemma {:induction false} SumAppends<T>(f: T -> real, a: seq<T>, b: seq<T>)
    ensures SumOf(f, a + b) == SumOf(f, a) + SumOf(f, b)
  {
    if |a| == 0 {
      assert a + b == b;
    } else {
      assert (a + b)[1..] == a[1..] + b;
      SumAppends(f, a[1..], b);
    }
  }

  lemma {:induction false} SumSplits<T>(f: T -> real, s: seq<T>, low: nat, high: nat)
    requires low <= high <= |s|
    ensures SumOf(f, s) == SumOf(f, s[..low]) + SumOf(f, s[low..high]) + SumOf(f, s[high..])
  {
    assert s == s[..high] + s[high..] && s[..high] == s[..low] + s[low..high];
    SumAppends(f, s[..high], s[high..]);
    SumAppends(f, s[..low], s[low..high]);
  }

  lemma {:induction false} SumPermutes<T>(f: T -> real, a: seq<T>, b: seq<T>)
    requires multiset(a) == multiset(b)
    ensures SumOf(f, a) == SumOf(f, b)
  {
    if |a| == 0 {
      assert |multiset(b)| == 0;
    } else {
      var left, right := TakeOut(a, b);
      SumPermutes(f, a[1..], left + right);
      SumAppends(f, left, right);
      SumAppends(f, left + [a[0]], right);
      SumAppends(f, left, [a[0]]);
    }
  }

  lemma {:induction false} SumAgrees<T>(f: T -> real, g: T -> real, s: seq<T>)
    requires forall i | 0 <= i < |s| :: f(s[i]) == g(s[i])
    ensures SumOf(f, s) == SumOf(g, s)
  {
    if |s| > 0 {
      SumAgrees(f, g, s[1..]);
    }
  }

  lemma {:induction false} SumAdds<T>(f: T -> real, g: T -> real, h: T -> real, s: seq<T>)
    requires forall i | 0 <= i < |s| :: h(s[i]) == f(s[i]) + g(s[i])
    ensures SumOf(h, s) == SumOf(f, s) + SumOf(g, s)
  {
    if |s| > 0 {
      SumAdds(f, g, h, s[1..]);
    }
  }

  lemma {:induction false} SumConstant<T>(f: T -> real, c: real, s: seq<T>)
    requires forall i | 0 <= i < |s| :: f(s[i]) == c
    ensures SumOf(f, s) == c * |s| as real
  {
    if |s| > 0 {
      SumConstant(f, c, s[1..]);
      assert |s| as real == |s[1..]| as real + 1.0;
    }
  }

  // ----- counts -----

  function Count<T>(p: T -> bool, s: seq<T>): (n: nat)
    ensures n <= |s|
  {
    if |s| == 0 then 0 else (if p(s[0]) then 1 else 0) + Count(p, s[1..])
  }

  lemma {:induction false} CountAppends<T>(p: T -> bool, a: seq<T>, b: seq<T>)
    ensures Count(p, a + b) == Count(p, a) + Count(p, b)
  {
    if |a| == 0 {
      assert a + b == b;
    } else {
      assert (a + b)[1..] == a[1..] + b;
      CountAppends(p, a[1..], b);
    }
  }

  lemma {:induction false} CountPermutes<T>(p: T -> bool, a: seq<T>, b: seq<T>)
    requires multiset(a) == multiset(b)
    ensures Count(p, a) == Count(p, b)
  {
    if |a| == 0 {
      assert |multiset(b)| == 0;
    } else {
      var left, right := TakeOut(a, b);
      CountPermutes(p, a[1..], left + right);
      CountAppends(p, left, right);
      CountAppends(p, left + [a[0]], right);
      CountAppends(p, left, [a[0]]);
    }
  }

  lemma {:induction false} CountAll<T>(p: T -> bool, s: seq<T>)
    requires forall i | 0 <= i < |s| :: p(s[i])
    ensures Count(p, s) == |s|
  {
    if |s| > 0 {
      CountAll(p, s[1..]);
    }
  }

  lemma {:induction false} CountNone<T>(p: T -> bool, s: seq<T>)
    requires forall i | 0 <= i < |s| :: !p(s[i])
    ensures Count(p, s) == 0
  {
    if |s| > 0 {
      CountNone(p, s[1..]);
    }
  }
}
