/**
 * The friend network: a map from each user to the set of its friends, kept
 * symmetric by updating both directions together, and the level-by-level
 * breadth-first expansion that collects a user's neighbourhood.
 */
module FriendGraph {
  import opened PurchaseOrder

  type Graph = map<UserId, set<UserId>>

  /** friends[u] of a defaultdict(set): a user never mentioned has no friends. */
  function Nbrs(g: Graph, u: UserId): set<UserId>
  {
    if u in g then g[u] else {}
  }

  ghost predicate Symmetric(g: Graph)
  {
    forall u, v :: v in Nbrs(g, u) ==> u in Nbrs(g, v)
  }

  // ---------------------------------------------------------------------
  // befriend / unfriend

  /** befriend: b is added to a's friends and a to b's friends; nothing else changes. */
  function AddFriend(g: Graph, a: UserId, b: UserId): (r: Graph)
    ensures forall u ::
              Nbrs(r, u) == Nbrs(g, u) + (if u == a then {b} else {}) + (if u == b then {a} else {})
    ensures r.Keys == g.Keys + {a, b}
  {
    var g1 := g[a := Nbrs(g, a) + {b}];
    g1[b := Nbrs(g1, b) + {a}]
  }

  /** unfriend once both removals have found their element. */
  function RemoveFriend(g: Graph, a: UserId, b: UserId): (r: Graph)
    ensures forall u ::
              Nbrs(r, u) == Nbrs(g, u) - (if u == a then {b} else {}) - (if u == b then {a} else {})
  {
    var g1 := g[a := Nbrs(g, a) - {b}];
    g1[b := Nbrs(g1, b) - {a}]
  }

  /**
   * unfriend completes only when friends[a].remove(b) and then
   * friends[b].remove(a) both find their element; otherwise set.remove raises.
   */
  predicate CanUnfriend(g: Graph, a: UserId, b: UserId)
  {
    b in Nbrs(g, a) && a in Nbrs(g[a := Nbrs(g, a) - {b}], b)
  }

  lemma AddFriendSymmetric(g: Graph, a: UserId, b: UserId)
    requires Symmetric(g)
    ensures Symmetric(AddFriend(g, a, b))
    ensures b in Nbrs(AddFriend(g, a, b), a) && a in Nbrs(AddFriend(g, a, b), b)
  {
  }

  lemma AddFriendIdempotent(g: Graph, a: UserId, b: UserId)
    ensures AddFriend(AddFriend(g, a, b), a, b) == AddFriend(g, a, b)
  {
    var g1, g2 := AddFriend(g, a, b), AddFriend(AddFriend(g, a, b), a, b);
    assert g2.Keys == g1.Keys;
    forall u | u in g1 ensures g2[u] == g1[u] {
      assert Nbrs(g2, u) == Nbrs(g1, u);
    }
  }

  lemma RemoveFriendSymmetric(g: Graph, a: UserId, b: UserId)
    requires Symmetric(g)
    ensures Symmetric(RemoveFriend(g, a, b))
    ensures b !in Nbrs(RemoveFriend(g, a, b), a) && a !in Nbrs(RemoveFriend(g, a, b), b)
  {
  }

  /** Dropping a self-loop, all a failed unfriend(a, a) does, keeps the map symmetric. */
  lemma RemoveSelfLoopSymmetric(g: Graph, a: UserId)
    requires Symmetric(g)
    ensures Symmetric(g[a := Nbrs(g, a) - {a}])
  {
    var g1 := g[a := Nbrs(g, a) - {a}];
    forall u, v | v in Nbrs(g1, u) ensures u in Nbrs(g1, v) {
      assert v in Nbrs(g, u) && (u == a ==> v != a);
      assert u in Nbrs(g, v);
    }
  }

  /** On a symmetric graph unfriend of two distinct users fails exactly when they are not friends. */
  lemma CanUnfriendSymmetric(g: Graph, a: UserId, b: UserId)
    requires Symmetric(g)
    ensures CanUnfriend(g, a, b) <==> a != b && b in Nbrs(g, a)
  {
    var g1 := g[a := Nbrs(g, a) - {b}];
    assert Nbrs(g1, b) == if a == b then Nbrs(g, a) - {b} else Nbrs(g, b);
  }

  /**
   * unfriend after a befriend of two distinct users that were not friends
   * completes (both removals find their element) and restores every friend
   * set.
   */
  lemma RemoveUndoesAdd(g: Graph, a: UserId, b: UserId)
    requires a != b
    requires b !in Nbrs(g, a) && a !in Nbrs(g, b)
    ensures CanUnfriend(AddFriend(g, a, b), a, b)
    ensures forall u :: Nbrs(RemoveFriend(AddFriend(g, a, b), a, b), u) == Nbrs(g, u)
  {
  }

  // ---------------------------------------------------------------------
  // Hop distance

  /** One more hop: s together with every friend of a member of s. */
  ghost function Step(g: Graph, s: set<UserId>): set<UserId>
  {
    s + (set u, v | u in s && v in Nbrs(g, u) :: v)
  }

  /** The users at most k hops from id (id itself included). */
  ghost function Reach(g: Graph, id: UserId, k: nat): set<UserId>
  {
    if k == 0 then {id} else Step(g, Reach(g, id, k - 1))
  }

  /** The users other than id whose hop distance from id is between 1 and d. */
  ghost function WithinHops(g: Graph, id: UserId, d: int): set<UserId>
  {
    Reach(g, id, Clamp(d)) - {id}
  }

  ghost predicate IsWalk(g: Graph, w: seq<UserId>)
  {
    |w| >= 1 && forall i :: 0 <= i < |w| - 1 ==> w[i + 1] in Nbrs(g, w[i])
  }

  ghost predicate Distinct(s: seq<UserId>)
  {
    forall i, j :: 0 <= i < j < |s| ==> s[i] != s[j]
  }

  lemma StepIncludes(g: Graph, s: set<UserId>, u: UserId, v: UserId)
    requires u in s && v in Nbrs(g, u)
    ensures v in Step(g, s)
  {
  }

  lemma {:induction false} IdInReach(g: Graph, id: UserId, k: nat)
    ensures id in Reach(g, id, k)
  {
    if k > 0 {
      IdInReach(g, id, k - 1);
    }
  }

  lemma ReachOne(g: Graph, id: UserId)
    ensures Reach(g, id, 1) == {id} + Nbrs(g, id)
  {
    forall v | v in Nbrs(g, id) ensures v in Reach(g, id, 1) {
      StepIncludes(g, {id}, id, v);
    }
  }

  /** A user first met at hop k + 2 is a friend of a user first met at hop k + 1. */
  lemma FrontierParent(g: Graph, id: UserId, k: nat, v: UserId) returns (u: UserId)
    requires v in Reach(g, id, k + 2) && v !in Reach(g, id, k + 1)
    ensures u in Reach(g, id, k + 1) && u !in Reach(g, id, k) && v in Nbrs(g, u)
  {
    u :| u in Reach(g, id, k + 1) && v in Nbrs(g, u);
    if u in Reach(g, id, k) {
      StepIncludes(g, Reach(g, id, k), u, v);
      assert false;
    }
  }

  /** A user within k hops is the end of a walk of at most k hops from id. */
  lemma {:induction false} ReachHasWalk(g: Graph, id: UserId, k: nat, v: UserId) returns (w: seq<UserId>)
    requires v in Reach(g, id, k)
    ensures IsWalk(g, w) && w[0] == id && w[|w| - 1] == v && |w| <= k + 1
  {
    if k == 0 {
      w := [id];
    } else if v in Reach(g, id, k - 1) {
      w := ReachHasWalk(g, id, k - 1, v);
    } else {
      var u :| u in Reach(g, id, k - 1) && v in Nbrs(g, u);
      var w0 := ReachHasWalk(g, id, k - 1, u);
      w := w0 + [v];
      assert forall i :: 0 <= i < |w0| ==> w[i] == w0[i];
    }
  }

  lemma {:induction false} WalkReaches(g: Graph, w: seq<UserId>, k: nat)
    requires IsWalk(g, w) && |w| <= k + 1
    ensures w[|w| - 1] in Reach(g, w[0], k)
  {
    if |w| == 1 {
      IdInReach(g, w[0], k);
    } else {
      var prefix := w[..|w| - 1];
      assert IsWalk(g, prefix);
      WalkReaches(g, prefix, k - 1);
      StepIncludes(g, Reach(g, w[0], k - 1), w[|w| - 2], w[|w| - 1]);
    }
  }

  /** The neighbourhood is exactly the users reached from id by a walk of 1 to d hops. */
  lemma WithinHopsByWalks(g: Graph, id: UserId, d: int, v: UserId)
    ensures v in WithinHops(g, id, d) <==>
      v != id && exists w :: IsWalk(g, w) && w[0] == id && w[|w| - 1] == v && |w| <= Clamp(d) + 1
  {
    if v in WithinHops(g, id, d) {
      var w := ReachHasWalk(g, id, Clamp(d), v);
    }
    if v != id && exists w :: IsWalk(g, w) && w[0] == id && w[|w| - 1] == v && |w| <= Clamp(d) + 1 {
      var w :| IsWalk(g, w) && w[0] == id && w[|w| - 1] == v && |w| <= Clamp(d) + 1;
      WalkReaches(g, w, Clamp(d));
    }
  }

  lemma WithinHopsZero(g: Graph, id: UserId, d: int)
    requires d <= 0
    ensures WithinHops(g, id, d) == {}
  {
  }

  // ---------------------------------------------------------------------
  // The breadth-first expansion of get_friend_purchases

  /** for nb in s: q.append(nb) -- the members of s, each once, in some order. */
  method AppendAll(q: seq<UserId>, s: set<UserId>) returns (q': seq<UserId>, ghost added: seq<UserId>)
    ensures q' == q + added
    ensures forall v :: v in added <==> v in s
    ensures q'[..|q|] == q && forall v :: v in q'[|q|..] <==> v in s
  {
    q', added := q, [];
    var rest := s;
    while rest != {}
      invariant rest <= s
      invariant q' == q + added
      invariant forall v :: v in added <==> v in s && v !in rest
      decreases rest
    {
      var v :| v in rest;
      q', added := q' + [v], added + [v];
      rest := rest - {v};
    }
    assert q'[|q|..] == added;
  }

  /** What the users collected at one level add up to. */
  lemma LevelCollected(g: Graph, id: UserId, level: nat, q: seq<UserId>, all: set<UserId>, all': set<UserId>)
    requires all == Reach(g, id, level) - {id}
    requires forall v :: v in q ==> v in Reach(g, id, level + 1)
    requires forall v :: v in Reach(g, id, level + 1) && v !in Reach(g, id, level) ==> v in q
    requires forall v :: v in all' <==> v in all || (v in q && v != id)
    ensures all' == Reach(g, id, level + 1) - {id}
  {
    assert Reach(g, id, level) <= Reach(g, id, level + 1);
  }

  /** Every user first met at hop level + 2 was queued as a friend of a user collected at this level. */
  lemma FrontierQueued(g: Graph, id: UserId, level: nat, all: set<UserId>, all': set<UserId>, next: seq<UserId>)
    requires all == Reach(g, id, level) - {id}
    requires all' == Reach(g, id, level + 1) - {id}
    requires forall u, v :: u in all' && u !in all && v in Nbrs(g, u) ==> v in next
    ensures forall v :: v in Reach(g, id, level + 2) && v !in Reach(g, id, level + 1) ==> v in next
  {
    forall v | v in Reach(g, id, level + 2) && v !in Reach(g, id, level + 1)
      ensures v in next
    {
      var u := FrontierParent(g, id, level, v);
      IdInReach(g, id, level);
    }
  }

  /**
   * One level of the breadth-first search: pop exactly the |q| entries
   * queued before the level began, skip id and users already collected,
   * collect the others and queue their friends.  Entering with the users
   * within `level` hops collected and the frontier queued, it leaves with
   * the users within level + 1 hops collected and the next frontier queued.
   */
  method ExpandLevel(g: Graph, id: UserId, level: nat, q: seq<UserId>, all: set<UserId>, ghost expanded: seq<UserId>)
    returns (q': seq<UserId>, all': set<UserId>, ghost expanded': seq<UserId>)
    requires all == Reach(g, id, level) - {id}
    requires forall v :: v in q ==> v in Reach(g, id, level + 1)
    requires forall v :: v in Reach(g, id, level + 1) && v !in Reach(g, id, level) ==> v in q
    requires Distinct(expanded) && forall v :: v in expanded <==> v in all
    ensures all' == Reach(g, id, level + 1) - {id}
    ensures forall v :: v in q' ==> v in Reach(g, id, level + 2)
    ensures forall v :: v in Reach(g, id, level + 2) && v !in Reach(g, id, level + 1) ==> v in q'
    ensures Distinct(expanded') && forall v :: v in expanded' <==> v in all'
  {
    q', all', expanded' := q, all, expanded;
    ghost var next: seq<UserId> := [];
    var s := |q|;
    for i := 0 to s
      invariant q' == q[i..] + next
      invariant forall v :: v in all' <==> v in all || (v in q[..i] && v != id)
      invariant forall v :: v in next ==> v in Reach(g, id, level + 2)
      invariant forall u, v :: u in all' && u !in all && v in Nbrs(g, u) ==> v in next
      invariant Distinct(expanded') && forall v :: v in expanded' <==> v in all'
    {
      assert q[i..] == [q[i]] + q[i + 1..];
      var u := q'[0];
      q' := q'[1..];
      assert u == q[i] && u in q;
      assert q' == q[i + 1..] + next;
      assert q[..i + 1] == q[..i] + [u];
      if !(u in all' || u == id) {
        all' := all' + {u};
        expanded' := expanded' + [u];
        var q1, added := AppendAll(q', Nbrs(g, u));
        forall v | v in added ensures v in Reach(g, id, level + 2) {
          StepIncludes(g, Reach(g, id, level + 1), u, v);
        }
        q', next := q1, next + added;
      }
    }
    assert q[..s] == q;
    LevelCollected(g, id, level, q, all, all');
    FrontierQueued(g, id, level, all, all', next);
  }

  /**
   * Level-counted breadth-first search from id over at most d levels.  The
   * queue starts with id's friends; each level pops exactly the entries that
   * were queued before it began.  `expanded` lists the users whose friends
   * were queued, in order.
   */
  method FriendsWithin(g: Graph, d: int, id: UserId) returns (allFriends: set<UserId>, ghost expanded: seq<UserId>)
    ensures allFriends == WithinHops(g, id, d)
    ensures id !in allFriends
    ensures Distinct(expanded)
    ensures forall v :: v in expanded <==> v in allFriends
  {
    var q, _ := AppendAll([], Nbrs(g, id));
    ReachOne(g, id);
    allFriends := {};
    expanded := [];
    var level: nat := 0;
    while level < d
      invariant level <= Clamp(d)
      invariant allFriends == Reach(g, id, level) - {id}
      invariant forall v :: v in q ==> v in Reach(g, id, level + 1)
      invariant forall v :: v in Reach(g, id, level + 1) && v !in Reach(g, id, level) ==> v in q
      invariant Distinct(expanded) && forall v :: v in expanded <==> v in allFriends
    {
      q, allFriends, expanded := ExpandLevel(g, id, level, q, allFriends, expanded);
      level := level + 1;
    }
  }
}
