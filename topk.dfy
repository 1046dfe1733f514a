/**
 * Bounded "largest n" collections of purchases.
 *
 * This module holds what the event engine needs from Python's heapq:
 * heappush/heappop on a per-user history (a minimum is evicted) and
 * nlargest (the n largest elements, largest first), both stated by their
 * effect on multisets of purchases.
 */
module TopK {
  import opened PurchaseOrder

  /** Largest first. */
  ghost predicate SortedDesc(s: seq<Purchase>)
  {
    forall i, j :: 0 <= i < j < |s| ==> Le(s[j], s[i])
  }

  /**
   * r consists of the n largest elements of a: it is a sub-multiset of a,
   * holds min(n, |a|) elements, and nothing of a that it leaves out is
   * above anything it keeps.
   */
  ghost predicate IsTop(r: multiset<Purchase>, a: multiset<Purchase>, n: int)
  {
    && r <= a
    && |r| == MinNat(Clamp(n), |a|)
    && forall x, y :: x in r && y in a - r ==> Le(y, x)
  }

  ghost predicate IsMin(x: Purchase, m: multiset<Purchase>)
  {
    x in m && forall y :: y in m ==> Le(x, y)
  }

  // ---------------------------------------------------------------------
  // Multiset facts

  lemma SubMultisetEq(r: multiset<Purchase>, a: multiset<Purchase>)
    requires r <= a && |r| == |a|
    ensures r == a
  {
    assert a == r + (a - r);
    assert |a - r| == 0;
  }

  // ---------------------------------------------------------------------
  // Minimum of a history (what heappop removes)

  lemma {:induction false} MinWitness(m: multiset<Purchase>) returns (x: Purchase)
    requires m != multiset{}
    ensures IsMin(x, m)
    decreases |m|
  {
    var z :| z in m;
    var rest := m - multiset{z};
    if rest == multiset{} {
      assert m == multiset{z};
      return z;
    }
    var y := MinWitness(rest);
    LeTotal(z, y);
    if Le(z, y) {
      forall w | w in m ensures Le(z, w) {
        if w != z {
          LeTransitive(z, y, w);
        }
      }
      return z;
    }
    assert m == rest + multiset{z};
    return y;
  }

  lemma MinExists(m: multiset<Purchase>)
    requires m != multiset{}
    ensures exists x :: IsMin(x, m)
  {
    var x := MinWitness(m);
  }

  /** The minimum of a non-empty multiset; it is unique because Le is a total order. */
  ghost function MinOf(m: multiset<Purchase>): (x: Purchase)
    requires m != multiset{}
    ensures IsMin(x, m)
  {
    MinExists(m);
    var x :| IsMin(x, m); x
  }

  lemma MinUnique(x: Purchase, m: multiset<Purchase>)
    requires IsMin(x, m)
    ensures x == MinOf(m)
  {
    LeAntisymmetric(x, MinOf(m));
  }

  /** The index of a minimum of a non-empty heap list. */
  method MinIndex(h: seq<Purchase>) returns (k: nat)
    requires h != []
    ensures k < |h|
    ensures forall j :: 0 <= j < |h| ==> Le(h[k], h[j])
  {
    k := 0;
    for i := 1 to |h|
      invariant k < i
      invariant forall j :: 0 <= j < i ==> Le(h[k], h[j])
    {
      if !Le(h[k], h[i]) {
        LeTotal(h[k], h[i]);
        forall j | 0 <= j < i ensures Le(h[i], h[j]) {
          LeTransitive(h[i], h[k], h[j]);
        }
        k := i;
      }
    }
  }

  /**
   * The multiset a history holds after heappush(p) and, when it then holds
   * more than t entries, one heappop.
   */
  ghost function Retain(h: multiset<Purchase>, p: Purchase, t: int): multiset<Purchase>
  {
    var h1 := h + multiset{p};
    if |h1| > t then h1 - multiset{MinOf(h1)} else h1
  }

  lemma RetainBounded(h: multiset<Purchase>, p: Purchase, t: int)
    requires |h| <= Clamp(t)
    ensures |Retain(h, p, t)| <= Clamp(t)
    ensures Retain(h, p, t) <= h + multiset{p}
  {
  }

  /** One push and at most one pop keep the t largest of everything pushed. */
  lemma RetainKeepsTop(h: multiset<Purchase>, a: multiset<Purchase>, p: Purchase, t: int)
    requires IsTop(h, a, t)
    ensures IsTop(Retain(h, p, t), a + multiset{p}, t)
  {
    var h1 := h + multiset{p};
    var h2 := Retain(h, p, t);
    if |h1| > t {
      var m := MinOf(h1);
      assert h1 - h2 == multiset{m};
      forall x, y | x in h2 && y in h1 - h2 ensures Le(y, x) {
        assert y == m;
      }
    }
    assert IsTop(h2, h + multiset{p}, t);
    TopFold(h, a, multiset{p}, h2, t);
  }

  /**
   * heappush(h, p) and, when h then holds more than t entries, heappop(h):
   * the new heap list holds the old entries and p, less one minimum on overflow.
   */
  method PushBounded(h: seq<Purchase>, p: Purchase, t: int) returns (h': seq<Purchase>)
    ensures multiset(h') == Retain(multiset(h), p, t)
  {
    h' := h + [p];
    assert multiset(h') == multiset(h) + multiset{p};
    if |h'| > t {
      var k := MinIndex(h');
      forall y | y in multiset(h') ensures Le(h'[k], y) {
        var j :| 0 <= j < |h'| && h'[j] == y;
      }
      MinUnique(h'[k], multiset(h'));
      assert h' == h'[..k] + [h'[k]] + h'[k + 1..];
      h' := h'[..k] + h'[k + 1..];
    }
  }

  // ---------------------------------------------------------------------
  // Sorting and nlargest

  lemma PrependSorted(x: Purchase, s: seq<Purchase>)
    requires SortedDesc(s)
    requires s != [] ==> Le(s[0], x)
    ensures SortedDesc([x] + s)
  {
    forall j | 0 <= j < |s| ensures Le(s[j], x) {
      if j > 0 {
        LeTransitive(s[j], s[0], x);
      }
    }
  }

  function InsertDesc(x: Purchase, s: seq<Purchase>): (r: seq<Purchase>)
    requires SortedDesc(s)
    ensures SortedDesc(r)
    ensures multiset(r) == multiset(s) + multiset{x}
  {
    if s == [] then [x]
    else if Le(s[0], x) then
      PrependSorted(x, s);
      [x] + s
    else
      var rest := InsertDesc(x, s[1..]);
      assert s == [s[0]] + s[1..];
      assert rest[0] in multiset(rest);
      LeTotal(s[0], x);
      PrependSorted(s[0], rest);
      [s[0]] + rest
  }

  function SortDesc(s: seq<Purchase>): (r: seq<Purchase>)
    ensures SortedDesc(r)
    ensures multiset(r) == multiset(s)
  {
    if s == [] then []
    else
      assert s == [s[0]] + s[1..];
      InsertDesc(s[0], SortDesc(s[1..]))
  }

  lemma PrefixBelow(s: seq<Purchase>, k: nat, x: Purchase, y: Purchase)
    requires SortedDesc(s) && k <= |s|
    requires x in s[..k] && y in s[k..]
    ensures Le(y, x)
  {
    var i :| 0 <= i < k && s[..k][i] == x;
    var j :| 0 <= j < |s| - k && s[k..][j] == y;
    assert s[i] == x && s[k + j] == y;
  }

  lemma PrefixSplit(s: seq<Purchase>, k: nat)
    requires k <= |s|
    ensures multiset(s) - multiset(s[..k]) == multiset(s[k..])
    ensures multiset(s[..k]) <= multiset(s)
  {
    assert s == s[..k] + s[k..];
  }

  lemma PrefixIsTop(s: seq<Purchase>, k: nat, n: int)
    requires SortedDesc(s)
    requires k == MinNat(Clamp(n), |s|)
    ensures SortedDesc(s[..k])
    ensures IsTop(multiset(s[..k]), multiset(s), n)
  {
    PrefixSplit(s, k);
    forall x, y | x in multiset(s[..k]) && y in multiset(s) - multiset(s[..k]) ensures Le(y, x) {
      PrefixBelow(s, k, x, y);
    }
  }

  /** heapq.nlargest(n, s): the n largest elements of s, largest first. */
  function NLargest(n: int, s: seq<Purchase>): (r: seq<Purchase>)
    ensures SortedDesc(r)
    ensures IsTop(multiset(r), multiset(s), n)
  {
    var sorted := SortDesc(s);
    var k := MinNat(Clamp(n), |s|);
    PrefixIsTop(sorted, k, n);
    sorted[..k]
  }

  // ---------------------------------------------------------------------
  // Uniqueness and folding

  /** A multiset has only one top-n: the result does not depend on how it was computed. */
  lemma TopUnique(r1: multiset<Purchase>, r2: multiset<Purchase>, a: multiset<Purchase>, n: int)
    requires IsTop(r1, a, n) && IsTop(r2, a, n)
    ensures r1 == r2
  {
    if !(r1 <= r2) {
      var z :| r1[z] > r2[z];
      assert z in r1 && z in a - r2;
      if r2 <= r1 {
        SubMultisetEq(r2, r1);
        assert false;
      }
      var w :| r2[w] > r1[w];
      assert w in r2 && w in a - r1;
      LeAntisymmetric(z, w);
      assert false;
    }
    SubMultisetEq(r1, r2);
  }

  lemma MultisetTail(s: seq<Purchase>)
    requires s != []
    ensures multiset(s[1..]) == multiset(s) - multiset{s[0]}
  {
    assert s == [s[0]] + s[1..];
  }

  lemma SortedHeadMax(s: seq<Purchase>, x: Purchase)
    requires SortedDesc(s) && x in s
    ensures Le(x, s[0])
  {
    var i :| 0 <= i < |s| && s[i] == x;
  }

  /** Two largest-first sequences with the same elements are equal. */
  lemma {:induction false} SortedUnique(s1: seq<Purchase>, s2: seq<Purchase>)
    requires SortedDesc(s1) && SortedDesc(s2)
    requires multiset(s1) == multiset(s2)
    ensures s1 == s2
  {
    if s1 != [] && s2 != [] {
      assert s1[0] in multiset(s2) && s2[0] in multiset(s1);
      SortedHeadMax(s2, s1[0]);
      SortedHeadMax(s1, s2[0]);
      LeAntisymmetric(s1[0], s2[0]);
      MultisetTail(s1);
      MultisetTail(s2);
      SortedUnique(s1[1..], s2[1..]);
    } else if s1 != [] || s2 != [] {
      assert |multiset(s1)| == |s1| && |multiset(s2)| == |s2|;
    }
  }

  /**
   * Keeping the n largest after each of several merges keeps the n largest
   * overall: a top-n of (a top-n of a) + b is a top-n of a + b.
   */
  lemma TopFold(r: multiset<Purchase>, a: multiset<Purchase>, b: multiset<Purchase>,
                s: multiset<Purchase>, n: int)
    requires IsTop(r, a, n)
    requires IsTop(s, r + b, n)
    ensures IsTop(s, a + b, n)
  {
    if |a| <= Clamp(n) {
      SubMultisetEq(r, a);
    } else {
      assert |r| == Clamp(n);
      forall x, y | x in s && y in (a + b) - s ensures Le(y, x) {
        if y !in (r + b) - s {
          assert y in a - r;
          if x !in r {
            if r <= s {
              SubMultisetEq(r, s);
              assert false;
            }
            var z :| r[z] > s[z];
            assert z in r && z in (r + b) - s;
            LeTransitive(y, z, x);
          }
        }
      }
    }
  }
}
