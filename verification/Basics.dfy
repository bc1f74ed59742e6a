/** Shared vocabulary: results, bytes, and the sequence facts every component leans on. */
module Basics {

  datatype Option<+T> = None | Some(value: T)

  datatype Result<+T, +E> = Success(value: T) | Failure(error: E)

  type byte = x: int | 0 <= x < 256
  type uint32 = x: int | 0 <= x < 0x1_0000_0000

  /** A 16-byte request id as it travels in a data frame. */
  type Id16 = s: seq<byte> | |s| == 16 witness seq(16, _ => 0)

  /** a is obtained from b by deleting elements, order kept. */
  predicate Subseq<T(==)>(a: seq<T>, b: seq<T>) {
    if a == [] then true
    else if b == [] then false
    else
      || (a[|a| - 1] == b[|b| - 1] && Subseq(a[..|a| - 1], b[..|b| - 1]))
      || Subseq(a, b[..|b| - 1])
  }

  lemma SubseqExtend<T>(a: seq<T>, b: seq<T>, x: T)
    requires Subseq(a, b)
    ensures Subseq(a, b + [x])
    ensures Subseq(a + [x], b + [x])
  {
    assert (b + [x])[..|b|] == b;
    assert (a + [x])[..|a|] == a;
  }

  lemma {:induction false} SubseqLength<T>(a: seq<T>, b: seq<T>)
    requires Subseq(a, b)
    ensures |a| <= |b|
    ensures |a| == |b| ==> a == b
    decreases |b|
  {
    if a != [] {
      if a[|a| - 1] == b[|b| - 1] && Subseq(a[..|a| - 1], b[..|b| - 1]) {
        SubseqLength(a[..|a| - 1], b[..|b| - 1]);
        assert a == a[..|a| - 1] + [a[|a| - 1]];
        assert b == b[..|b| - 1] + [b[|b| - 1]];
      } else {
        SubseqLength(a, b[..|b| - 1]);
      }
    }
  }

  lemma {:induction false} SubseqRefl<T>(a: seq<T>)
    ensures Subseq(a, a)
  {
    if a != [] {
      SubseqRefl(a[..|a| - 1]);
    }
  }

  lemma {:induction false} SubseqTrans<T>(a: seq<T>, b: seq<T>, c: seq<T>)
    requires Subseq(a, b) && Subseq(b, c)
    ensures Subseq(a, c)
    decreases |b| + |c|
  {
    if a != [] {
      if b[|b| - 1] == c[|c| - 1] && Subseq(b[..|b| - 1], c[..|c| - 1]) {
        if a[|a| - 1] == b[|b| - 1] && Subseq(a[..|a| - 1], b[..|b| - 1]) {
          SubseqTrans(a[..|a| - 1], b[..|b| - 1], c[..|c| - 1]);
        } else {
          SubseqTrans(a, b[..|b| - 1], c[..|c| - 1]);
        }
      } else {
        SubseqTrans(a, b, c[..|c| - 1]);
      }
    }
  }

  /** Dropping elements from the back leaves a subsequence. */
  lemma {:induction false} SubseqPrefix<T>(a: seq<T>, b: seq<T>)
    requires a <= b
    ensures Subseq(a, b)
    decreases |b|
  {
    if |a| == |b| {
      assert a == b;
      SubseqRefl(a);
    } else {
      SubseqPrefix(a, b[..|b| - 1]);
    }
  }

  /** Deleting one more element from the middle. */
  lemma {:induction false} SubseqDropMiddle<T>(a: seq<T>, x: T, b: seq<T>, all: seq<T>)
    requires Subseq(a + [x] + b, all)
    ensures Subseq(a + b, all)
    decreases |b|
  {
    SubseqRefl(a);
    SubseqExtend(a, a, x);
    SubseqAppendBoth(a, a + [x], b);
    SubseqTrans(a + b, a + [x] + b, all);
  }

  lemma {:induction false} SubseqAppendBoth<T>(a: seq<T>, b: seq<T>, t: seq<T>)
    requires Subseq(a, b)
    ensures Subseq(a + t, b + t)
  {
    if t == [] {
      assert a + t == a && b + t == b;
    } else {
      var init, x := t[..|t| - 1], t[|t| - 1];
      SubseqAppendBoth(a, b, init);
      SubseqExtend(a + init, b + init, x);
      assert a + t == (a + init) + [x] && b + t == (b + init) + [x];
    }
  }

  /** A bounded queue between two loops: of everything offered, some was taken out, some is queued,
      and `lost` elements are gone. Order is kept, and without loss nothing is missing. */
  ghost predicate InOrder<T>(taken: seq<T>, queue: seq<T>, all: seq<T>, lost: nat) {
    && Subseq(taken + queue, all)
    && (lost == 0 ==> taken + queue == all)
    && |taken| + |queue| + lost == |all|
  }

  lemma InOrderPush<T>(taken: seq<T>, queue: seq<T>, all: seq<T>, lost: nat, x: T)
    requires InOrder(taken, queue, all, lost)
    ensures InOrder(taken, queue + [x], all + [x], lost)
  {
    hide Subseq;
    SubseqExtend(taken + queue, all, x);
    assert taken + (queue + [x]) == (taken + queue) + [x];
  }

  lemma InOrderRefuse<T>(taken: seq<T>, queue: seq<T>, all: seq<T>, lost: nat, x: T)
    requires InOrder(taken, queue, all, lost)
    ensures InOrder(taken, queue, all + [x], lost + 1)
  {
    hide Subseq;
    SubseqExtend(taken + queue, all, x);
  }

  lemma InOrderTake<T>(taken: seq<T>, queue: seq<T>, all: seq<T>, lost: nat)
    requires InOrder(taken, queue, all, lost) && queue != []
    ensures InOrder(taken + [queue[0]], queue[1..], all, lost)
    ensures InOrder(taken, queue[1..], all, lost + 1)
  {
    hide Subseq;
    assert taken + [queue[0]] + queue[1..] == taken + queue;
    SubseqDropMiddle(taken, queue[0], queue[1..], all);
  }

  /** How many elements satisfy p. */
  function Count<T>(s: seq<T>, p: T -> bool): nat {
    if s == [] then 0
    else Count(s[..|s| - 1], p) + if p(s[|s| - 1]) then 1 else 0
  }

  lemma CountAppend<T>(s: seq<T>, x: T, p: T -> bool)
    ensures Count(s + [x], p) == Count(s, p) + if p(x) then 1 else 0
  {
    assert (s + [x])[..|s|] == s;
  }

  lemma {:induction false} CountUpdate<T>(s: seq<T>, i: nat, x: T, p: T -> bool)
    requires i < |s|
    ensures Count(s[i := x], p) == Count(s, p) - (if p(s[i]) then 1 else 0) + (if p(x) then 1 else 0)
  {
    var n := |s| - 1;
    if i == n {
      assert s[i := x][..n] == s[..n];
    } else {
      assert s[i := x][..n] == s[..n][i := x];
      CountUpdate(s[..n], i, x, p);
    }
  }

  lemma {:induction false} CountImplies<T>(s: seq<T>, p: T -> bool, q: T -> bool)
    requires forall i | 0 <= i < |s| :: p(s[i]) ==> q(s[i])
    ensures Count(s, p) <= Count(s, q)
  {
    if s != [] {
      CountImplies(s[..|s| - 1], p, q);
    }
  }

  lemma {:induction false} CountNone<T>(s: seq<T>, p: T -> bool)
    requires forall i | 0 <= i < |s| :: !p(s[i])
    ensures Count(s, p) == 0
  {
    if s != [] {
      CountNone(s[..|s| - 1], p);
    }
  }

  lemma {:induction false} CountPositive<T>(s: seq<T>, i: nat, p: T -> bool)
    requires i < |s| && p(s[i])
    ensures Count(s, p) >= 1
  {
    if i < |s| - 1 {
      CountPositive(s[..|s| - 1], i, p);
    }
  }

  lemma SetPutSize<T>(s: set<T>, x: T)
    ensures |s + {x}| == |s| + if x in s then 0 else 1
  {
    if x in s {
      assert s + {x} == s;
    }
  }

  lemma SetDropSize<T>(s: set<T>, x: T)
    ensures |s - {x}| == |s| - if x in s then 1 else 0
  {
    if x in s {
      assert s == (s - {x}) + {x};
    } else {
      assert s - {x} == s;
    }
  }

  lemma MapPutSize<K, V>(m: map<K, V>, k: K, v: V)
    ensures |m[k := v]| == |m| + if k in m then 0 else 1
  {
    assert m[k := v].Keys == m.Keys + {k};
  }

  lemma MapDropSize<K, V>(m: map<K, V>, k: K)
    ensures |m - {k}| == |m| - if k in m then 1 else 0
  {
    assert (m - {k}).Keys == m.Keys - {k};
  }

  function Sum(s: seq<int>): int {
    if s == [] then 0 else Sum(s[..|s| - 1]) + s[|s| - 1]
  }

  lemma {:induction false} SumUpdate(s: seq<int>, i: nat, x: int)
    requires i < |s|
    ensures Sum(s[i := x]) == Sum(s) - s[i] + x
  {
    var n := |s| - 1;
    if i == n {
      assert s[i := x][..n] == s[..n];
    } else {
      assert s[i := x][..n] == s[..n][i := x];
      SumUpdate(s[..n], i, x);
    }
  }
}
