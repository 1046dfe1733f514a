/**
 * get_friend_purchases: the purchase amounts of the t most recent purchases
 * made by anyone in a user's d-hop neighbourhood.  The histories of all
 * neighbours are folded together, keeping only the t largest tuples after
 * each fold, so the result is a global top-t over the union of the
 * neighbours' histories, not t from each friend.
 */
module Neighbourhood {
  import opened PurchaseOrder
  import opened TopK
  import opened FriendGraph

  type Histories = map<UserId, seq<Purchase>>

  /** purchases[u] of a defaultdict(list): a user with no purchases has an empty history. */
  function Hist(p: Histories, u: UserId): seq<Purchase>
  {
    if u in p then p[u] else []
  }

  /** The multiset union of the histories of the users in s. */
  ghost function Pooled(p: Histories, s: set<UserId>): multiset<Purchase>
  {
    if s == {} then multiset{}
    else
      var u :| u in s;
      multiset(Hist(p, u)) + Pooled(p, s - {u})
  }

  lemma {:induction false} PooledAny(p: Histories, s: set<UserId>, u: UserId)
    requires u in s
    ensures Pooled(p, s) == multiset(Hist(p, u)) + Pooled(p, s - {u})
    decreases |s|
  {
    var c :| c in s && Pooled(p, s) == multiset(Hist(p, c)) + Pooled(p, s - {c});
    if c != u {
      PooledAny(p, s - {c}, u);
      PooledAny(p, s - {u}, c);
      assert s - {c} - {u} == s - {u} - {c};
    }
  }

  lemma PooledAdd(p: Histories, s: set<UserId>, f: UserId)
    requires f !in s
    ensures Pooled(p, s + {f}) == Pooled(p, s) + multiset(Hist(p, f))
  {
    PooledAny(p, s + {f}, f);
    assert (s + {f}) - {f} == s;
  }

  /** Histories of users outside s do not take part in Pooled(p, s). */
  lemma {:induction false} PooledIgnores(p: Histories, s: set<UserId>, id: UserId, h: seq<Purchase>)
    requires id !in s
    ensures Pooled(p[id := h], s) == Pooled(p, s)
    decreases |s|
  {
    if s != {} {
      var u :| u in s;
      assert Hist(p[id := h], u) == Hist(p, u);
      PooledAny(p, s, u);
      PooledAny(p[id := h], s, u);
      PooledIgnores(p, s - {u}, id, h);
    }
  }

  /** Some listing of a multiset. */
  ghost function SeqOf(m: multiset<Purchase>): (s: seq<Purchase>)
    ensures multiset(s) == m
    decreases |m|
  {
    if m == multiset{} then []
    else
      var x :| x in m;
      assert m == multiset{x} + (m - multiset{x});
      [x] + SeqOf(m - multiset{x})
  }

  /** The t largest purchases of a multiset, largest first. */
  ghost function TopSeq(a: multiset<Purchase>, t: int): seq<Purchase>
  {
    NLargest(t, SeqOf(a))
  }

  /** Any largest-first listing of a top-t is TopSeq: the merge result is determined. */
  lemma TopSeqUnique(r: seq<Purchase>, a: multiset<Purchase>, t: int)
    requires SortedDesc(r) && IsTop(multiset(r), a, t)
    ensures r == TopSeq(a, t)
  {
    var s := TopSeq(a, t);
    TopUnique(multiset(r), multiset(s), a, t);
    SortedUnique(r, s);
  }

  /** [i[1] for i in r]: the amounts of a list of purchases. */
  function Amounts(r: seq<Purchase>): (a: seq<real>)
    ensures |a| == |r|
    ensures forall i :: 0 <= i < |r| ==> a[i] == r[i].amount
  {
    if r == [] then [] else [r[0].amount] + Amounts(r[1..])
  }

  /** The purchases whose amounts get_friend_purchases returns. */
  ghost function RecentPurchases(g: Graph, p: Histories, d: int, t: int, id: UserId): seq<Purchase>
  {
    TopSeq(Pooled(p, WithinHops(g, id, d)), t)
  }

  ghost function RecentAmounts(g: Graph, p: Histories, d: int, t: int, id: UserId): seq<real>
  {
    Amounts(RecentPurchases(g, p, d, t, id))
  }

  /**
   * The recent purchases are the t largest tuples of the union of the
   * neighbours' histories (a global top-t), largest first: at most t of them,
   * all drawn from that union, and none left out above one kept.
   */
  lemma RecentIsGlobalTop(g: Graph, p: Histories, d: int, t: int, id: UserId)
    ensures SortedDesc(RecentPurchases(g, p, d, t, id))
    ensures IsTop(multiset(RecentPurchases(g, p, d, t, id)), Pooled(p, WithinHops(g, id, d)), t)
    ensures |RecentAmounts(g, p, d, t, id)| <= Clamp(t)
  {
  }

  /** With depth 0 the neighbourhood is empty and so is the list of amounts. */
  lemma RecentEmptyAtDepthZero(g: Graph, p: Histories, d: int, t: int, id: UserId)
    requires d <= 0
    ensures RecentAmounts(g, p, d, t, id) == []
  {
    WithinHopsZero(g, id, d);
    assert |RecentPurchases(g, p, d, t, id)| == 0;
  }

  /** A user's own history never influences its neighbourhood's recent purchases. */
  lemma RecentIgnoresOwnHistory(g: Graph, p: Histories, d: int, t: int, id: UserId, h: seq<Purchase>)
    ensures RecentPurchases(g, p[id := h], d, t, id) == RecentPurchases(g, p, d, t, id)
  {
    PooledIgnores(p, WithinHops(g, id, d), id, h);
  }

  /** Replacing the subject's own history leaves its recent amounts as they were. */
  lemma RecentAmountsIgnoreOwnHistory(g: Graph, p: Histories, p': Histories, d: int, t: int, id: UserId)
    requires id in p' && p' == p[id := p'[id]]
    ensures RecentAmounts(g, p', d, t, id) == RecentAmounts(g, p, d, t, id)
  {
    RecentIgnoresOwnHistory(g, p, d, t, id, p'[id]);
  }

  /** One fold of the merge loop keeps a top-t of the histories folded so far. */
  lemma MergeStep(p: Histories, done: set<UserId>, f: UserId, r: seq<Purchase>, t: int)
    requires f !in done
    requires IsTop(multiset(r), Pooled(p, done), t)
    ensures IsTop(multiset(NLargest(t, r + Hist(p, f))), Pooled(p, done + {f}), t)
  {
    var next := NLargest(t, r + Hist(p, f));
    assert multiset(r + Hist(p, f)) == multiset(r) + multiset(Hist(p, f));
    TopFold(multiset(r), Pooled(p, done), multiset(Hist(p, f)), multiset(next), t);
    PooledAdd(p, done, f);
  }

  /**
   * The merge loop: for each neighbour, r := nlargest(t, merge(r, purchases[f])).
   * heapq.merge yields every element of both inputs, so it is modelled as
   * concatenation; nlargest only depends on the multiset it is given.
   */
  method MergeRecent(p: Histories, allFriends: set<UserId>, t: int) returns (r: seq<Purchase>)
    ensures SortedDesc(r)
    ensures IsTop(multiset(r), Pooled(p, allFriends), t)
    ensures r == TopSeq(Pooled(p, allFriends), t)
  {
    r := [];
    var rest := allFriends;
    ghost var done: set<UserId> := {};
    while rest != {}
      invariant rest + done == allFriends && rest !! done
      invariant SortedDesc(r)
      invariant IsTop(multiset(r), Pooled(p, done), t)
      decreases rest
    {
      var f :| f in rest;
      MergeStep(p, done, f, r, t);
      r := NLargest(t, r + Hist(p, f));
      rest := rest - {f};
      done := done + {f};
    }
    TopSeqUnique(r, Pooled(p, allFriends), t);
  }

  /**
   * get_friend_purchases(friends, purchases, d, t, id): the amounts of the t
   * most recent purchases of id's neighbourhood, largest tuple first.
   */
  method GetFriendPurchases(g: Graph, p: Histories, d: int, t: int, id: UserId) returns (amounts: seq<real>)
    ensures amounts == RecentAmounts(g, p, d, t, id)
    ensures |amounts| <= Clamp(t)
    ensures d <= 0 ==> amounts == []
  {
    var allFriends, _ := FriendsWithin(g, d, id);
    var r := MergeRecent(p, allFriends, t);
    amounts := Amounts(r);
    RecentIsGlobalTop(g, p, d, t, id);
    if d <= 0 {
      RecentEmptyAtDepthZero(g, p, d, t, id);
    }
  }

  // ---------------------------------------------------------------------
  // A worked neighbourhood: the chain A - B - C, with B's history
  // [("1", 10)] and C's history [("2", 20), ("3", 30)]

  const ChainFriends: Graph := map["A" := {"B"}, "B" := {"A", "C"}, "C" := {"B"}]
  const ChainHistories: Histories :=
    map["B" := [Purchase("1", 10.0)], "C" := [Purchase("2", 20.0), Purchase("3", 30.0)]]

  lemma ChainHops()
    ensures WithinHops(ChainFriends, "A", 1) == {"B"}
    ensures WithinHops(ChainFriends, "A", 2) == {"B", "C"}
  {
    var g := ChainFriends;
    assert Nbrs(g, "A") == {"B"} && Nbrs(g, "B") == {"A", "C"} && Nbrs(g, "C") == {"B"};
    StepIncludes(g, {"A"}, "A", "B");
    assert Reach(g, "A", 1) == {"A", "B"};
    StepIncludes(g, {"A", "B"}, "B", "C");
    assert Reach(g, "A", 2) == {"A", "B", "C"};
  }

  lemma ChainFarTop(b1: Purchase, c2: Purchase, c3: Purchase)
    requires Le(b1, c2) && Le(c2, c3) && b1 != c2 && b1 != c3
    ensures SortedDesc([c3, c2]) && IsTop(multiset([c3, c2]), multiset{b1, c2, c3}, 2)
  {
    var far, r := multiset{b1, c2, c3}, [c3, c2];
    LeTransitive(b1, c2, c3);
    assert multiset(r) == multiset{c2, c3};
    assert far - multiset(r) == multiset{b1};
  }

  /** With t = 2 and depth 1, only B is a neighbour of A. */
  lemma ChainDepthOne()
    ensures RecentPurchases(ChainFriends, ChainHistories, 1, 2, "A") == [Purchase("1", 10.0)]
    ensures RecentAmounts(ChainFriends, ChainHistories, 1, 2, "A") == [10.0]
  {
    var p, b1 := ChainHistories, Purchase("1", 10.0);
    ChainHops();
    PooledAny(p, {"B"}, "B");
    assert {"B"} - {"B"} == {};
    assert Pooled(p, {"B"}) == multiset{b1};
    TopSeqUnique([b1], multiset{b1}, 2);
  }

  /** B has bought 10 and then 20; nobody else has bought anything. */
  const PairHistories: Histories := map["B" := [Purchase("1", 10.0), Purchase("2", 20.0)]]

  /** With t = 2 and depth 1, A's recent amounts are both of B's, the later one first. */
  lemma PairDepthOne()
    ensures RecentPurchases(ChainFriends, PairHistories, 1, 2, "A") == [Purchase("2", 20.0), Purchase("1", 10.0)]
    ensures RecentAmounts(ChainFriends, PairHistories, 1, 2, "A") == [20.0, 10.0]
  {
    var p, b1, b2 := PairHistories, Purchase("1", 10.0), Purchase("2", 20.0);
    ChainHops();
    PooledAny(p, {"B"}, "B");
    assert {"B"} - {"B"} == {};
    assert Pooled(p, {"B"}) == multiset{b1, b2};
    assert Le(b1, b2);
    assert multiset([b2, b1]) == multiset{b1, b2};
    RecentFromTop(ChainFriends, p, 1, 2, "A", {"B"}, [b2, b1]);
  }

  lemma ChainPooledFar()
    ensures Pooled(ChainHistories, {"B", "C"}) ==
            multiset{Purchase("1", 10.0), Purchase("2", 20.0), Purchase("3", 30.0)}
  {
    var p := ChainHistories;
    PooledAny(p, {"B", "C"}, "C");
    assert {"B", "C"} - {"C"} == {"B"};
    PooledAny(p, {"B"}, "B");
    assert {"B"} - {"B"} == {};
  }

  /** A listing of the top-t of the pooled neighbourhood, largest first, is the recent purchases. */
  lemma RecentFromTop(g: Graph, p: Histories, d: int, t: int, id: UserId, s: set<UserId>, r: seq<Purchase>)
    requires WithinHops(g, id, d) == s
    requires SortedDesc(r) && IsTop(multiset(r), Pooled(p, s), t)
    ensures RecentPurchases(g, p, d, t, id) == r
  {
    TopSeqUnique(r, Pooled(p, s), t);
  }

  /**
   * With t = 2 and depth 2, the two most recent tuples of B and C together
   * are both C's: B's purchase is left out although B is the nearer friend.
   */
  lemma ChainDepthTwo()
    ensures RecentPurchases(ChainFriends, ChainHistories, 2, 2, "A") == [Purchase("3", 30.0), Purchase("2", 20.0)]
    ensures RecentAmounts(ChainFriends, ChainHistories, 2, 2, "A") == [30.0, 20.0]
  {
    var b1, c2, c3 := Purchase("1", 10.0), Purchase("2", 20.0), Purchase("3", 30.0);
    ChainHops();
    ChainPooledFar();
    ChainFarTop(b1, c2, c3);
    RecentFromTop(ChainFriends, ChainHistories, 2, 2, "A", {"B", "C"}, [c3, c2]);
  }
}
