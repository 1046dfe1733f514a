/**
 * The event engine: process_line dispatches one parsed log record to the
 * friend network or to the purchasing user's bounded history and, when asked
 * to, tests the purchase against its neighbourhood; process runs the batch
 * log without the test and then the stream log with it.
 *
 * The test itself is Statistics.Exceeds.  The "{:0.2f}" renderings of the
 * mean and the standard deviation stored in a flagged record are a
 * parameter `render` of the engine: floating-point formatting is not
 * modelled.
 */
module Detector {
  import opened PurchaseOrder
  import opened TopK
  import opened FriendGraph
  import opened Neighbourhood
  import opened Statistics

  /** One parsed log record, by its event_type. */
  datatype Event =
    | PurchaseEvent(id: UserId, amount: real, timestamp: string)
    | Befriend(id1: UserId, id2: UserId)
    | Unfriend(id1: UserId, id2: UserId)
    | Other  // any other event_type falls through every branch

  /** The "{:0.2f}" renderings of numpy.mean and numpy.std of a list of amounts. */
  type Render = seq<real> -> (string, string)

  /** A purchase record with the formatted mean and sd added to it. */
  datatype Flagged = Flagged(event: Event, mean: string, sd: string)

  /**
   * The records a purchase event adds to the flagged list when its
   * neighbourhood's recent amounts are `recent`: the event itself, with the
   * rendered mean and sd, if the test is on and the amount exceeds
   * mean + 3 * sd.
   */
  function FlagsFor(e: Event, output: bool, recent: seq<real>, render: Render): seq<Flagged>
  {
    if output && e.PurchaseEvent? && Exceeds(e.amount, recent)
    then [Flagged(e, render(recent).0, render(recent).1)]
    else []
  }

  /** f1 is f0, or f0 with one record of the purchase e appended. */
  ghost predicate Extends(f0: seq<Flagged>, f1: seq<Flagged>, e: Event)
  {
    || f1 == f0
    || (&& e.PurchaseEvent?
        && |f1| == |f0| + 1
        && f1 == f0 + [f1[|f0|]]
        && f1[|f0|].event == e)
  }

  lemma FlagsForExtends(f0: seq<Flagged>, e: Event, output: bool, recent: seq<real>, render: Render)
    ensures Extends(f0, f0 + FlagsFor(e, output, recent, render), e)
  {
    if output && e.PurchaseEvent? && Exceeds(e.amount, recent) {
      assert (f0 + FlagsFor(e, output, recent, render))[|f0|].event == e;
    } else {
      assert f0 + FlagsFor(e, output, recent, render) == f0;
    }
  }

  type Inserts = map<UserId, multiset<Purchase>>

  ghost function InsertedOf(ins: Inserts, u: UserId): multiset<Purchase>
  {
    if u in ins then ins[u] else multiset{}
  }

  /** u's history holds the t largest tuples ever recorded for u. */
  ghost predicate KeptFor(p: Histories, ins: Inserts, t: int, u: UserId)
  {
    IsTop(multiset(Hist(p, u)), InsertedOf(ins, u), t)
  }

  /** Each user's history holds the t largest tuples ever recorded for it. */
  ghost predicate HistoriesKept(p: Histories, ins: Inserts, t: int)
  {
    forall u :: KeptFor(p, ins, t, u)
  }

  /**
   * p1 is p0 after heappush of x onto id's history and, when that history
   * then holds more than t entries, one heappop: only id's entry changes.
   */
  ghost predicate Recorded(p0: Histories, p1: Histories, id: UserId, x: Purchase, t: int)
  {
    && id in p1
    && p1 == p0[id := p1[id]]
    && multiset(p1[id]) == Retain(multiset(Hist(p0, id)), x, t)
  }

  lemma KeptForAfterRecord(p: Histories, ins: Inserts, t: int, id: UserId, h: seq<Purchase>, x: Purchase, u: UserId)
    requires KeptFor(p, ins, t, u)
    requires multiset(h) == Retain(multiset(Hist(p, id)), x, t)
    ensures KeptFor(p[id := h], ins[id := InsertedOf(ins, id) + multiset{x}], t, u)
  {
    if u == id {
      RetainKeepsTop(multiset(Hist(p, id)), InsertedOf(ins, id), x, t);
    }
  }

  /** Recording x for id keeps every history a top-t of what was recorded for it. */
  lemma KeptAfterRecord(p: Histories, ins: Inserts, t: int, id: UserId, h: seq<Purchase>, x: Purchase)
    requires HistoriesKept(p, ins, t)
    requires multiset(h) == Retain(multiset(Hist(p, id)), x, t)
    ensures HistoriesKept(p[id := h], ins[id := InsertedOf(ins, id) + multiset{x}], t)
  {
    var p', ins' := p[id := h], ins[id := InsertedOf(ins, id) + multiset{x}];
    forall u ensures KeptFor(p', ins', t, u) {
      KeptForAfterRecord(p, ins, t, id, h, x, u);
    }
  }

  /**
   * What process_line does to the friend map g and the histories p, with
   * window t: the pair (g1, p1) it leaves from (g0, p0).  A failed unfriend
   * leaves what its first removal did.
   */
  ghost predicate LineEffect(e: Event, t: int, g0: Graph, p0: Histories, g1: Graph, p1: Histories)
  {
    match e
    case PurchaseEvent(id, amount, timestamp) =>
      g1 == g0 && Recorded(p0, p1, id, Purchase(timestamp, amount), t)
    case Befriend(a, b) =>
      g1 == AddFriend(g0, a, b) && p1 == p0
    case Unfriend(a, b) =>
      && g1 == (if CanUnfriend(g0, a, b) then RemoveFriend(g0, a, b)
                else if b in Nbrs(g0, a) then g0[a := Nbrs(g0, a) - {b}]
                else g0)
      && p1 == p0
    case Other =>
      g1 == g0 && p1 == p0
  }

  /**
   * The records process_line appends to the flagged list: for a purchase
   * when `output` holds, the record itself if its amount exceeds the mean
   * plus three standard deviations of the recent amounts of its
   * neighbourhood in (g, p), the state after the purchase was recorded;
   * nothing otherwise.
   */
  ghost function NewFlags(e: Event, output: bool, render: Render, d: int, t: int,
                          g: Graph, p: Histories): seq<Flagged>
  {
    if e.PurchaseEvent? then FlagsFor(e, output, RecentAmounts(g, p, d, t, e.id), render) else []
  }

  /** A record adds at most one flagged record, for itself, and none without the test. */
  lemma NewFlagsShape(fl: seq<Flagged>, e: Event, output: bool, render: Render, d: int, t: int,
                      g: Graph, p: Histories)
    ensures Extends(fl, fl + NewFlags(e, output, render, d, t, g, p), e)
    ensures !output ==> NewFlags(e, output, render, d, t, g, p) == []
  {
    if e.PurchaseEvent? {
      FlagsForExtends(fl, e, output, RecentAmounts(g, p, d, t, e.id), render);
    } else {
      assert fl + [] == fl;
    }
  }

  /** The state process_line reads and writes, as one value. */
  datatype Snapshot = Snapshot(friends: Graph, purchases: Histories, inserted: Inserts, flagged: seq<Flagged>)

  /** Everything recorded for each user, after the record e. */
  ghost function InsertedAfter(e: Event, ins: Inserts): Inserts
  {
    if e.PurchaseEvent? then ins[e.id := InsertedOf(ins, e.id) + multiset{Purchase(e.timestamp, e.amount)}]
    else ins
  }

  /**
   * process_line(e) does not raise in s0 (an unfriend finds both friend
   * entries) and leaves s1: the effect of LineEffect on the friend map and
   * the histories, the record noted for its user when it is a purchase, and
   * exactly NewFlags appended to the flagged list.
   */
  ghost predicate LineStep(e: Event, output: bool, render: Render, d: int, t: int, s0: Snapshot, s1: Snapshot)
  {
    && (e.Unfriend? ==> CanUnfriend(s0.friends, e.id1, e.id2))
    && LineEffect(e, t, s0.friends, s0.purchases, s1.friends, s1.purchases)
    && s1.inserted == InsertedAfter(e, s0.inserted)
    && s1.flagged == s0.flagged + NewFlags(e, output, render, d, t, s1.friends, s1.purchases)
  }

  /** LineStep for a fixed test switch, depth, window and rendering, as a relation value. */
  ghost function LineSteps(output: bool, render: Render, d: int, t: int): (Event, Snapshot, Snapshot) -> bool
  {
    (e, s0, s1) => LineStep(e, output, render, d, t, s0, s1)
  }

  /**
   * states[k + 1] follows from states[k] by the record lines[k], in the
   * sense of `step`, for each record of lines in turn.
   */
  ghost predicate Chain<S>(lines: seq<Event>, states: seq<S>, step: (Event, S, S) -> bool)
    decreases |lines|
  {
    && |states| == |lines| + 1
    && (lines != [] ==>
          && step(lines[|lines| - 1], states[|lines| - 1], states[|lines|])
          && Chain(lines[..|lines| - 1], states[..|lines|], step))
  }

  /** states[k + 1] is what process_line(lines[k]) leaves from states[k], for each k. */
  ghost predicate Steps(lines: seq<Event>, output: bool, render: Render, d: int, t: int, states: seq<Snapshot>)
  {
    Chain(lines, states, LineSteps(output, render, d, t))
  }

  /**
   * The first stop records of lines take states from one to the next, and
   * the next record is an unfriend that raises in the last of them.
   */
  ghost predicate RaisesAt(lines: seq<Event>, output: bool, render: Render, d: int, t: int,
                           states: seq<Snapshot>, stop: nat)
  {
    && stop < |lines|
    && Steps(lines[..stop], output, render, d, t, states)
    && lines[stop].Unfriend?
    && !CanUnfriend(states[stop].friends, lines[stop].id1, lines[stop].id2)
  }

  /** One more record extends a chain. */
  lemma ChainSnoc<S>(lines: seq<Event>, states: seq<S>, step: (Event, S, S) -> bool, i: nat, s: S)
    requires i < |lines|
    requires Chain(lines[..i], states, step)
    requires step(lines[i], states[i], s)
    ensures Chain(lines[..i + 1], states + [s], step)
  {
    assert lines[..i + 1][..i] == lines[..i];
    assert (states + [s])[..i + 1] == states;
  }

  /** What a chain means: the k-th record takes states[k] to states[k + 1]. */
  lemma {:induction false} ChainAt<S>(lines: seq<Event>, states: seq<S>, step: (Event, S, S) -> bool, k: nat)
    requires Chain(lines, states, step) && k < |lines|
    ensures step(lines[k], states[k], states[k + 1])
    decreases |lines|
  {
    var n := |lines| - 1;
    if k < n {
      ChainAt(lines[..n], states[..n + 1], step, k);
      assert lines[..n][k] == lines[k];
      assert states[..n + 1][k] == states[k] && states[..n + 1][k + 1] == states[k + 1];
    }
  }

  /** What Steps means: the k-th record takes states[k] to states[k + 1]. */
  lemma StepAt(lines: seq<Event>, output: bool, render: Render, d: int, t: int, states: seq<Snapshot>, k: nat)
    requires Steps(lines, output, render, d, t, states) && k < |lines|
    ensures LineStep(lines[k], output, render, d, t, states[k], states[k + 1])
  {
    ChainAt(lines, states, LineSteps(output, render, d, t), k);
  }

  /** The purchase tuples lines records for u. */
  function PurchasesOf(lines: seq<Event>, u: UserId): multiset<Purchase>
    decreases |lines|
  {
    if lines == [] then multiset{}
    else
      var e := lines[|lines| - 1];
      PurchasesOf(lines[..|lines| - 1], u)
      + (if e.PurchaseEvent? && e.id == u then multiset{Purchase(e.timestamp, e.amount)} else multiset{})
  }

  lemma InsertedAfterOf(e: Event, ins: Inserts, u: UserId)
    ensures InsertedOf(InsertedAfter(e, ins), u)
         == InsertedOf(ins, u) + (if e.PurchaseEvent? && e.id == u then multiset{Purchase(e.timestamp, e.amount)} else multiset{})
  {
  }

  /**
   * When each record takes what is recorded to InsertedAfter of it, what
   * is recorded for u grows by exactly u's purchases among the records.
   */
  lemma {:induction false} InsertedFold(lines: seq<Event>, states: seq<Snapshot>, u: UserId)
    requires |states| == |lines| + 1
    requires forall k :: 0 <= k < |lines| ==> states[k + 1].inserted == InsertedAfter(lines[k], states[k].inserted)
    ensures InsertedOf(states[|lines|].inserted, u) == InsertedOf(states[0].inserted, u) + PurchasesOf(lines, u)
    decreases |lines|
  {
    if lines != [] {
      var n := |lines| - 1;
      var prev := states[..n + 1];
      forall k | 0 <= k < n ensures prev[k + 1].inserted == InsertedAfter(lines[..n][k], prev[k].inserted) {
        assert prev[k] == states[k] && prev[k + 1] == states[k + 1] && lines[..n][k] == lines[k];
      }
      InsertedFold(lines[..n], prev, u);
      assert prev[0] == states[0] && prev[n] == states[n];
      InsertedAfterOf(lines[n], states[n].inserted, u);
    }
  }

  /** Along a trace, what is recorded for u grows by exactly u's purchases among the records. */
  lemma StepsInserted(lines: seq<Event>, output: bool, render: Render, d: int, t: int,
                      states: seq<Snapshot>, u: UserId)
    requires Steps(lines, output, render, d, t, states)
    ensures InsertedOf(states[|lines|].inserted, u) == InsertedOf(states[0].inserted, u) + PurchasesOf(lines, u)
  {
    forall k | 0 <= k < |lines| ensures states[k + 1].inserted == InsertedAfter(lines[k], states[k].inserted) {
      StepAt(lines, output, render, d, t, states, k);
    }
    InsertedFold(lines, states, u);
  }

  /**
   * After the batch from Initial and then the stream, when every history
   * is the top T of what was recorded for its user, it is the top T of
   * that user's purchases in the two logs.
   */
  lemma RunsKept(batch: seq<Event>, stream: seq<Event>, render: Render, d: int, t: int,
                 bs: seq<Snapshot>, ss: seq<Snapshot>)
    requires Steps(batch, false, render, d, t, bs) && bs[0] == Initial
    requires Steps(stream, true, render, d, t, ss) && ss[0] == bs[|batch|]
    requires HistoriesKept(ss[|stream|].purchases, ss[|stream|].inserted, t)
    ensures forall u :: IsTop(multiset(Hist(ss[|stream|].purchases, u)), PurchasesOf(batch, u) + PurchasesOf(stream, u), t)
  {
    forall u ensures IsTop(multiset(Hist(ss[|stream|].purchases, u)), PurchasesOf(batch, u) + PurchasesOf(stream, u), t) {
      StepsInserted(batch, false, render, d, t, bs, u);
      StepsInserted(stream, true, render, d, t, ss, u);
      assert KeptFor(ss[|stream|].purchases, ss[|stream|].inserted, t, u);
    }
  }

  /** Without the test, a run of records leaves the flagged list as it was. */
  lemma {:induction false} StepsWithoutTest(lines: seq<Event>, render: Render, d: int, t: int, states: seq<Snapshot>)
    requires Steps(lines, false, render, d, t, states)
    ensures states[|lines|].flagged == states[0].flagged
    decreases |lines|
  {
    if lines != [] {
      var n := |lines| - 1;
      StepsWithoutTest(lines[..n], render, d, t, states[..n + 1]);
      StepAt(lines, false, render, d, t, states, n);
      NewFlagsShape(states[n].flagged, lines[n], false, render, d, t, states[n + 1].friends, states[n + 1].purchases);
    }
  }

  /**
   * On the chain A - B - C of Neighbourhood with depth 1 and window 2, a
   * purchase of 20 by A is flagged: its neighbourhood holds the single
   * amount 10, whose standard deviation is 0.
   */
  lemma SingleAmountFlags(render: Render)
    ensures NewFlags(PurchaseEvent("A", 20.0, "4"), true, render, 1, 2,
                     ChainFriends, ChainHistories["A" := [Purchase("4", 20.0)]])
            == [Flagged(PurchaseEvent("A", 20.0, "4"), render([10.0]).0, render([10.0]).1)]
  {
    RecentIgnoresOwnHistory(ChainFriends, ChainHistories, 1, 2, "A", [Purchase("4", 20.0)]);
    ChainDepthOne();
    ExceedsOneAmount(20.0, 10.0);
  }

  /**
   * When A's only neighbour B has bought 10 and then 20, a purchase by A
   * with depth 1 and window 2 is compared with mean 15 and sd 5: it is
   * flagged exactly when its amount is above 30.
   */
  lemma PairFlags(amount: real, render: Render)
    ensures NewFlags(PurchaseEvent("A", amount, "4"), true, render, 1, 2,
                     ChainFriends, PairHistories["A" := [Purchase("4", amount)]])
            == if amount > 30.0
               then [Flagged(PurchaseEvent("A", amount, "4"), render([20.0, 10.0]).0, render([20.0, 10.0]).1)]
               else []
  {
    RecentIgnoresOwnHistory(ChainFriends, PairHistories, 1, 2, "A", [Purchase("4", amount)]);
    PairDepthOne();
    TwoAmounts(amount);
  }

  /** From the empty state, no trace passes through an unfriend of two strangers: it raises. */
  lemma StrangersRaise(output: bool, render: Render, d: int, t: int, states: seq<Snapshot>)
    requires |states| > 0 && states[0] == Initial
    ensures !Steps([Unfriend("a", "b")], output, render, d, t, states)
    ensures RaisesAt([Unfriend("a", "b")], output, render, d, t, states[..1], 0)
  {
    if Steps([Unfriend("a", "b")], output, render, d, t, states) {
      StepAt([Unfriend("a", "b")], output, render, d, t, states, 0);
      assert false;
    }
    assert [Unfriend("a", "b")][..0] == [];
  }

  /** From the empty state, befriend and then unfriend of the same pair never raises. */
  lemma BefriendThenUnfriend(output: bool, render: Render, d: int, t: int, states: seq<Snapshot>, stop: nat)
    requires |states| > 0 && states[0] == Initial
    ensures !RaisesAt([Befriend("a", "b"), Unfriend("a", "b")], output, render, d, t, states, stop)
  {
    var lines := [Befriend("a", "b"), Unfriend("a", "b")];
    if RaisesAt(lines, output, render, d, t, states, stop) {
      assert stop == 1;
      assert lines[..1] == [Befriend("a", "b")];
      StepAt(lines[..1], output, render, d, t, states, 0);
      assert false;
    }
  }

  // ---------------------------------------------------------------------
  // process_line is deterministic: the same records from the same state
  // give the same friend map, histories (as multisets) and flagged list

  /** Two history maps holding the same multiset for every user. */
  ghost predicate HistAgree(p: Histories, q: Histories)
  {
    forall u :: multiset(Hist(p, u)) == multiset(Hist(q, u))
  }

  /** Two states engine code cannot tell apart; the stored order of a heap list is not observed. */
  ghost predicate Agree(s0: Snapshot, s1: Snapshot)
  {
    && s0.friends == s1.friends
    && HistAgree(s0.purchases, s1.purchases)
    && s0.inserted == s1.inserted
    && s0.flagged == s1.flagged
  }

  /** Histories with the same multisets pool to the same multiset. */
  lemma {:induction false} PooledAgree(p: Histories, q: Histories, s: set<UserId>)
    requires HistAgree(p, q)
    ensures Pooled(p, s) == Pooled(q, s)
    decreases |s|
  {
    if s != {} {
      var u :| u in s;
      PooledAny(p, s, u);
      PooledAny(q, s, u);
      PooledAgree(p, q, s - {u});
    }
  }

  /** The same record applied to one friend map and two agreeing history maps. */
  lemma EffectAgree(e: Event, t: int, g0: Graph, p0: Histories, q0: Histories,
                    g1: Graph, p1: Histories, h1: Graph, q1: Histories)
    requires HistAgree(p0, q0)
    requires LineEffect(e, t, g0, p0, g1, p1) && LineEffect(e, t, g0, q0, h1, q1)
    ensures g1 == h1 && HistAgree(p1, q1)
  {
    if e.PurchaseEvent? {
      forall u ensures multiset(Hist(p1, u)) == multiset(Hist(q1, u)) {
        if u != e.id {
          assert Hist(p1, u) == Hist(p0, u) && Hist(q1, u) == Hist(q0, u);
        }
      }
    }
  }

  /** The test sees only the multisets of the histories. */
  lemma FlagsAgree(e: Event, output: bool, render: Render, d: int, t: int, g: Graph, p: Histories, q: Histories)
    requires HistAgree(p, q)
    ensures NewFlags(e, output, render, d, t, g, p) == NewFlags(e, output, render, d, t, g, q)
  {
    if e.PurchaseEvent? {
      PooledAgree(p, q, WithinHops(g, e.id, d));
    }
  }

  /** One record taken from two agreeing states leaves two agreeing states. */
  lemma StepAgree(e: Event, output: bool, render: Render, d: int, t: int,
                  s0: Snapshot, s1: Snapshot, r0: Snapshot, r1: Snapshot)
    requires Agree(s0, r0)
    requires LineStep(e, output, render, d, t, s0, s1) && LineStep(e, output, render, d, t, r0, r1)
    ensures Agree(s1, r1)
  {
    EffectAgree(e, t, s0.friends, s0.purchases, r0.purchases, s1.friends, s1.purchases, r1.friends, r1.purchases);
    FlagsAgree(e, output, render, d, t, s1.friends, s1.purchases, r1.purchases);
  }

  /** Agreement that each step up to k passes on holds at k. */
  lemma {:induction false} AgreeAt(states: seq<Snapshot>, states': seq<Snapshot>, k: nat)
    requires k < |states| && k < |states'| && Agree(states[0], states'[0])
    requires forall i :: 0 <= i < k ==> Agree(states[i], states'[i]) ==> Agree(states[i + 1], states'[i + 1])
    ensures Agree(states[k], states'[k])
  {
    if k > 0 {
      AgreeAt(states, states', k - 1);
    }
  }

  /** Two traces of logs whose first k records are the same pass agreement on up to k. */
  lemma AgreeUpTo(lines: seq<Event>, lines': seq<Event>, output: bool, render: Render, d: int, t: int,
                  states: seq<Snapshot>, states': seq<Snapshot>, k: nat)
    requires Steps(lines, output, render, d, t, states) && Steps(lines', output, render, d, t, states')
    requires k <= |lines| && k <= |lines'| && forall i :: 0 <= i < k ==> lines[i] == lines'[i]
    requires Agree(states[0], states'[0])
    ensures Agree(states[k], states'[k])
  {
    forall i | 0 <= i < k && Agree(states[i], states'[i]) ensures Agree(states[i + 1], states'[i + 1]) {
      AgreeNext(lines, lines', output, render, d, t, states, states', i);
    }
    AgreeAt(states, states', k);
  }

  /** Two traces whose k-th records are the same and which agree at k agree at k + 1. */
  lemma AgreeNext(lines: seq<Event>, lines': seq<Event>, output: bool, render: Render, d: int, t: int,
                  states: seq<Snapshot>, states': seq<Snapshot>, k: nat)
    requires Steps(lines, output, render, d, t, states) && Steps(lines', output, render, d, t, states')
    requires k < |lines| && k < |lines'| && lines[k] == lines'[k]
    requires Agree(states[k], states'[k])
    ensures Agree(states[k + 1], states'[k + 1])
  {
    StepAt(lines, output, render, d, t, states, k);
    StepAt(lines', output, render, d, t, states', k);
    StepAgree(lines[k], output, render, d, t, states[k], states[k + 1], states'[k], states'[k + 1]);
  }

  /**
   * Two traces of the same records from agreeing states agree everywhere;
   * in particular they end with the same flagged list.
   */
  lemma TracesAgree(lines: seq<Event>, output: bool, render: Render, d: int, t: int,
                    states: seq<Snapshot>, states': seq<Snapshot>)
    requires Steps(lines, output, render, d, t, states) && Steps(lines, output, render, d, t, states')
    requires Agree(states[0], states'[0])
    ensures forall k :: 0 <= k <= |lines| ==> Agree(states[k], states'[k])
    ensures states[|lines|].flagged == states'[|lines|].flagged
  {
    forall k | 0 <= k <= |lines| ensures Agree(states[k], states'[k]) {
      AgreeUpTo(lines, lines, output, render, d, t, states, states', k);
    }
  }

  /** A log that runs to the end from some state raises from no agreeing state. */
  lemma TraceExcludesRaise(lines: seq<Event>, output: bool, render: Render, d: int, t: int,
                           states: seq<Snapshot>, states': seq<Snapshot>, stop: nat)
    requires Steps(lines, output, render, d, t, states)
    requires |states'| > 0 && Agree(states[0], states'[0])
    ensures !RaisesAt(lines, output, render, d, t, states', stop)
  {
    if RaisesAt(lines, output, render, d, t, states', stop) {
      AgreeUpTo(lines, lines[..stop], output, render, d, t, states, states', stop);
      StepAt(lines, output, render, d, t, states, stop);
      assert false;
    }
  }

  /** From agreeing states a log raises at one position only: the first unfriend that raises. */
  lemma RaiseUnique(lines: seq<Event>, output: bool, render: Render, d: int, t: int,
                    states: seq<Snapshot>, states': seq<Snapshot>, stop: nat, stop': nat)
    requires RaisesAt(lines, output, render, d, t, states, stop)
    requires RaisesAt(lines, output, render, d, t, states', stop')
    requires Agree(states[0], states'[0])
    ensures stop == stop'
  {
    if stop < stop' {
      AgreeUpTo(lines[..stop'], lines[..stop], output, render, d, t, states', states, stop);
      StepAt(lines[..stop'], output, render, d, t, states', stop);
      assert false;
    } else if stop' < stop {
      AgreeUpTo(lines[..stop], lines[..stop'], output, render, d, t, states, states', stop');
      StepAt(lines[..stop], output, render, d, t, states, stop');
      assert false;
    }
  }

  class Engine {
    const depth: int
    const window: int
    var friends: Graph
    var purchases: Histories
    var flagged: seq<Flagged>
    /** Every purchase ever recorded for each user. */
    ghost var inserted: Inserts

    /**
     * The friend map is symmetric, and each user's history holds the
     * `window` largest (timestamp, amount) tuples ever recorded for it.
     */
    ghost predicate Valid()
      reads this`friends, this`purchases, this`inserted
    {
      && Symmetric(friends)
      && HistoriesKept(purchases, inserted, window)
    }

    ghost function State(): Snapshot
      reads this`friends, this`purchases, this`inserted, this`flagged
    {
      Snapshot(friends, purchases, inserted, flagged)
    }

    constructor (d: int, t: int)
      ensures Valid()
      ensures depth == d && window == t
      ensures friends == map[] && purchases == map[] && flagged == [] && inserted == map[]
    {
      depth, window := d, t;
      friends, purchases, flagged := map[], map[], [];
      inserted := map[];
    }

    /**
     * heappush(purchases[id], p) and, when the history then holds more than
     * `window` entries, heappop.
     */
    method RecordPurchase(id: UserId, p: Purchase)
      requires Valid()
      modifies this`purchases, this`inserted
      ensures Valid()
      ensures Recorded(old(purchases), purchases, id, p, window)
      ensures |Hist(purchases, id)| <= Clamp(window)
      ensures inserted == old(inserted)[id := InsertedOf(old(inserted), id) + multiset{p}]
    {
      var before := Hist(purchases, id);
      var h := PushBounded(before, p, window);
      KeptAfterRecord(purchases, inserted, window, id, h, p);
      assert KeptFor(purchases, inserted, window, id);
      RetainBounded(multiset(before), p, window);
      purchases := purchases[id := h];
      inserted := inserted[id := InsertedOf(inserted, id) + multiset{p}];
    }

    /** befriend: friends[a].add(b); friends[b].add(a). */
    method Befriend(a: UserId, b: UserId)
      requires Valid()
      modifies this`friends
      ensures Valid()
      ensures friends == AddFriend(old(friends), a, b)
    {
      AddFriendSymmetric(friends, a, b);
      friends := friends[a := Nbrs(friends, a) + {b}];
      friends := friends[b := Nbrs(friends, b) + {a}];
    }

    /**
     * unfriend: friends[a].remove(b); friends[b].remove(a).  A removal that
     * does not find its element raises; `ok` is false then, and the state is
     * what the removals before it left.
     */
    method Unfriend(a: UserId, b: UserId) returns (ok: bool)
      requires Valid()
      modifies this`friends
      ensures Valid()
      ensures ok <==> CanUnfriend(old(friends), a, b)
      ensures ok ==> friends == RemoveFriend(old(friends), a, b)
      ensures !ok ==>
                friends == if b in Nbrs(old(friends), a) then old(friends)[a := Nbrs(old(friends), a) - {b}] else old(friends)
    {
      RemoveFriendSymmetric(friends, a, b);
      if b !in Nbrs(friends, a) {
        return false;
      }
      RemoveSelfLoopSymmetric(friends, a);
      friends := friends[a := Nbrs(friends, a) - {b}];
      if a !in Nbrs(friends, b) {
        return false;
      }
      friends := friends[b := Nbrs(friends, b) - {a}];
      return true;
    }

    /**
     * The test of the purchase branch of process_line: the record, with the
     * rendered mean and sd, is added to the flagged list when its amount
     * exceeds mean + 3 * sd of the neighbourhood's recent amounts.
     */
    method FlagIfAnomalous(e: Event, render: Render)
      requires e.PurchaseEvent?
      modifies this`flagged
      ensures flagged == old(flagged) + FlagsFor(e, true, RecentAmounts(friends, purchases, depth, window, e.id), render)
    {
      var recent := GetFriendPurchases(friends, purchases, depth, window, e.id);
      flagged := flagged + FlagsFor(e, true, recent, render);
    }

    /**
     * The purchase branch of process_line: record (timestamp, amount) in the
     * user's history, then, when `output` holds, test the purchase against
     * the histories as they are after that update.
     */
    method HandlePurchase(e: Event, output: bool, render: Render)
      requires Valid() && e.PurchaseEvent?
      modifies this`purchases, this`inserted, this`flagged
      ensures Valid()
      ensures Recorded(old(purchases), purchases, e.id, Purchase(e.timestamp, e.amount), window)
      ensures flagged == old(flagged) + FlagsFor(e, output, RecentAmounts(friends, purchases, depth, window, e.id), render)
      ensures inserted == InsertedAfter(e, old(inserted))
    {
      RecordPurchase(e.id, Purchase(e.timestamp, e.amount));
      assert inserted == InsertedAfter(e, old(inserted));
      if output {
        FlagIfAnomalous(e, render);
      } else {
        assert flagged == old(flagged) + [];
      }
    }

    /**
     * process_line: route one record.  A purchase is recorded first; then,
     * when `output` holds, the amounts of the neighbourhood's recent
     * purchases are computed and the record is flagged when its amount
     * exceeds their mean plus three standard deviations.  `ok` is false
     * exactly when an unfriend raises.
     */
    method ProcessLine(e: Event, output: bool, render: Render) returns (ok: bool)
      requires Valid()
      modifies this`friends, this`purchases, this`inserted, this`flagged
      ensures Valid()
      ensures ok <==> !e.Unfriend? || CanUnfriend(old(friends), e.id1, e.id2)
      ensures LineEffect(e, window, old(friends), old(purchases), friends, purchases)
      ensures flagged == old(flagged) + NewFlags(e, output, render, depth, window, friends, purchases)
      ensures inserted == InsertedAfter(e, old(inserted))
    {
      ok := true;
      match e {
      case PurchaseEvent(_, _, _) =>
        HandlePurchase(e, output, render);
      case Befriend(a, b) =>
        Befriend(a, b);
      case Unfriend(a, b) =>
        ok := Unfriend(a, b);
      case Other =>
        assert flagged == old(flagged) + [];
      }
    }

    /**
     * One pass of the loop of process: ProcessLine, with its effect stated
     * as one LineStep when no unfriend raises, and as LineEffect either
     * way; without the test the flagged list stays as it was.
     */
    method Advance(e: Event, output: bool, render: Render) returns (ok: bool)
      requires Valid()
      modifies this`friends, this`purchases, this`inserted, this`flagged
      ensures Valid()
      ensures ok <==> !e.Unfriend? || CanUnfriend(old(friends), e.id1, e.id2)
      ensures ok ==> LineStep(e, output, render, depth, window, old(State()), State())
      ensures LineEffect(e, window, old(friends), old(purchases), friends, purchases)
      ensures !ok ==> inserted == old(inserted) && flagged == old(flagged)
      ensures !output ==> flagged == old(flagged)
    {
      ghost var fl := flagged;
      ok := ProcessLine(e, output, render);
      NewFlagsShape(fl, e, output, render, depth, window, friends, purchases);
    }

    /**
     * for line in lines: process_line(..., line, output): the records in
     * order, until an unfriend raises.  `states` lists the state before the
     * run and after each record; when the unfriend at position `stop`
     * raises, they end with the state it raised in, and the engine is left
     * with what its first removal did.
     */
    method Run(lines: seq<Event>, output: bool, render: Render)
      returns (ok: bool, ghost states: seq<Snapshot>, ghost stop: nat)
      requires Valid()
      modifies this`friends, this`purchases, this`inserted, this`flagged
      ensures Valid()
      ensures !output ==> flagged == old(flagged)
      ensures ok ==> Steps(lines, output, render, depth, window, states)
      ensures ok ==> states[0] == old(State()) && states[|lines|] == State()
      ensures !ok ==> RaisesAt(lines, output, render, depth, window, states, stop) && states[0] == old(State())
      ensures !ok ==> LineEffect(lines[stop], window, states[stop].friends, states[stop].purchases, friends, purchases)
      ensures !ok ==> inserted == states[stop].inserted && flagged == states[stop].flagged
    {
      ghost var f := flagged;
      states, stop := [State()], 0;
      for i := 0 to |lines|
        invariant Valid()
        invariant Steps(lines[..i], output, render, depth, window, states)
        invariant states[0] == old(State()) && states[i] == State()
        invariant !output ==> flagged == f
      {
        ok := Advance(lines[i], output, render);
        if !ok {
          stop := i;
          return;
        }
        ChainSnoc(lines, states, LineSteps(output, render, depth, window), i, State());
        states := states + [State()];
      }
      assert lines[..|lines|] == lines;
      ok := true;
    }
  }

  /** The end of a run: the flagged records, or an unfriend that raised and ended it. */
  datatype RunResult = Completed(flagged: seq<Flagged>) | Aborted

  /**
   * fl is f followed by one record for each entry of origin: the last of
   * them came from the purchase at position origin[|origin| - 1] of lines,
   * which is below n, and the others are traced the same way to positions
   * below that one.
   */
  ghost predicate Traced(f: seq<Flagged>, fl: seq<Flagged>, origin: seq<nat>, lines: seq<Event>, n: int)
    decreases |origin|
  {
    if origin == [] then fl == f
    else
      var k := origin[|origin| - 1];
      && |fl| > 0 && k < n && k < |lines|
      && lines[k].PurchaseEvent? && fl[|fl| - 1].event == lines[k]
      && Traced(f, fl[..|fl| - 1], origin[..|origin| - 1], lines, k)
  }

  lemma {:induction false} TracedMono(f: seq<Flagged>, fl: seq<Flagged>, origin: seq<nat>, lines: seq<Event>, n: int, m: int)
    requires Traced(f, fl, origin, lines, n) && n <= m
    ensures Traced(f, fl, origin, lines, m)
  {
  }

  /**
   * What Traced means: fl is f followed by |origin| records, the k-th of
   * them from the purchase at position origin[k] of lines, and the
   * positions increase and stay below n.
   */
  lemma {:induction false} TracedMeans(f: seq<Flagged>, fl: seq<Flagged>, origin: seq<nat>, lines: seq<Event>, n: int)
    requires Traced(f, fl, origin, lines, n)
    ensures |fl| == |f| + |origin| && fl[..|f|] == f
    ensures forall k :: 0 <= k < |origin| ==>
              && origin[k] < n && origin[k] < |lines|
              && lines[origin[k]].PurchaseEvent? && fl[|f| + k].event == lines[origin[k]]
    ensures forall k, l :: 0 <= k < l < |origin| ==> origin[k] < origin[l]
    decreases |origin|
  {
    if origin != [] {
      var last := origin[|origin| - 1];
      var fl', origin' := fl[..|fl| - 1], origin[..|origin| - 1];
      TracedMeans(f, fl', origin', lines, last);
      assert fl[..|f|] == fl'[..|f|];
      forall k | 0 <= k < |origin'| ensures fl[|f| + k] == fl'[|f| + k] && origin[k] == origin'[k] {
      }
    }
  }

  /** One record that extends the flagged list by at most a record of its own keeps the trace. */
  lemma TracedStep(f: seq<Flagged>, f0: seq<Flagged>, f1: seq<Flagged>, origin: seq<nat>, lines: seq<Event>, i: nat)
    requires i < |lines|
    requires Traced(f, f0, origin, lines, i) && Extends(f0, f1, lines[i])
    ensures Traced(f, f1, if |f1| > |f0| then origin + [i] else origin, lines, i + 1)
  {
    if |f1| > |f0| {
      var o := origin + [i];
      assert o[..|o| - 1] == origin;
      assert f1[..|f1| - 1] == f0;
    } else {
      TracedMono(f, f0, origin, lines, i, i + 1);
    }
  }

  /** The positions in lines of the records that added a flagged record along a trace. */
  ghost function Origins(lines: seq<Event>, states: seq<Snapshot>): seq<nat>
    requires |states| == |lines| + 1
    decreases |lines|
  {
    if lines == [] then []
    else
      var n := |lines| - 1;
      Origins(lines[..n], states[..n + 1]) + (if |states[n + 1].flagged| > |states[n].flagged| then [n] else [])
  }

  /** Along a trace, each record adds at most one flagged record, of itself. */
  lemma StepExtends(lines: seq<Event>, output: bool, render: Render, d: int, t: int, states: seq<Snapshot>, k: nat)
    requires Steps(lines, output, render, d, t, states) && k < |lines|
    ensures Extends(states[k].flagged, states[k + 1].flagged, lines[k])
  {
    StepAt(lines, output, render, d, t, states, k);
    NewFlagsShape(states[k].flagged, lines[k], output, render, d, t, states[k + 1].friends, states[k + 1].purchases);
  }

  /** Along a trace of steps, each record adds at most one flagged record, of itself. */
  lemma StepsExtend(lines: seq<Event>, output: bool, render: Render, d: int, t: int, states: seq<Snapshot>)
    requires Steps(lines, output, render, d, t, states)
    ensures |states| == |lines| + 1
    ensures forall k :: 0 <= k < |lines| ==> Extends(states[k].flagged, states[k + 1].flagged, lines[k])
  {
    forall k | 0 <= k < |lines| ensures Extends(states[k].flagged, states[k + 1].flagged, lines[k]) {
      StepExtends(lines, output, render, d, t, states, k);
    }
  }

  /**
   * When each of the first i records of lines adds at most one flagged
   * record, of itself, every record added is traced to the purchase that
   * added it.
   */
  lemma {:induction false} ExtendsTraced(lines: seq<Event>, states: seq<Snapshot>, i: nat)
    requires i <= |lines| && |states| == i + 1
    requires forall k :: 0 <= k < i ==> Extends(states[k].flagged, states[k + 1].flagged, lines[k])
    ensures Traced(states[0].flagged, states[i].flagged, Origins(lines[..i], states), lines, i)
    decreases i
  {
    if i > 0 {
      var n := i - 1;
      var prev := states[..i];
      assert lines[..i][..n] == lines[..n];
      forall k | 0 <= k < n ensures Extends(prev[k].flagged, prev[k + 1].flagged, lines[k]) {
        assert prev[k] == states[k] && prev[k + 1] == states[k + 1];
      }
      ExtendsTraced(lines, prev, n);
      assert prev[0] == states[0] && prev[n] == states[n];
      var o := Origins(lines[..n], prev);
      assert Origins(lines[..i], states) == if |states[i].flagged| > |states[n].flagged| then o + [n] else o by {
        assert o + [] == o;
      }
      TracedStep(states[0].flagged, states[n].flagged, states[i].flagged, o, lines, n);
    } else {
      assert lines[..i] == [];
    }
  }

  /** The state of a new engine: no friends, no purchases, nothing flagged. */
  const Initial: Snapshot := Snapshot(map[], map[], map[], [])

  /**
   * process: the batch records are processed without the test, then the
   * stream records with it, on one engine.  `batchStates` and
   * `streamStates` are the states after each record: the batch starts from
   * Initial, the stream from where the batch ends, and the result is the
   * flagged list of the last state.  The batch flags nothing, and each
   * flagged record is traced to the stream purchase that added it, in
   * stream order.  At the end the friend map is symmetric and each user's
   * history holds the T largest of its purchases in the two logs.  The run
   * is aborted exactly when an unfriend raises: `stop` is its position, in
   * the batch or, after the whole batch, in the stream.
   */
  method Process(d: int, t: int, batch: seq<Event>, stream: seq<Event>, render: Render)
    returns (result: RunResult, ghost batchStates: seq<Snapshot>, ghost streamStates: seq<Snapshot>, ghost stop: nat)
    ensures result.Completed? ==>
              && Steps(batch, false, render, d, t, batchStates) && batchStates[0] == Initial
              && Steps(stream, true, render, d, t, streamStates) && streamStates[0] == batchStates[|batch|]
              && result.flagged == streamStates[|stream|].flagged
    ensures result.Completed? ==> batchStates[|batch|].flagged == []
    ensures result.Completed? ==> Symmetric(streamStates[|stream|].friends)
    ensures result.Completed? ==>
              forall u :: IsTop(multiset(Hist(streamStates[|stream|].purchases, u)),
                                PurchasesOf(batch, u) + PurchasesOf(stream, u), t)
    ensures result.Completed? ==> Traced([], result.flagged, Origins(stream, streamStates), stream, |stream|)
    ensures result.Aborted? ==>
              || (RaisesAt(batch, false, render, d, t, batchStates, stop) && batchStates[0] == Initial)
              || (&& Steps(batch, false, render, d, t, batchStates) && batchStates[0] == Initial
                  && RaisesAt(stream, true, render, d, t, streamStates, stop)
                  && streamStates[0] == batchStates[|batch|])
  {
    var engine := new Engine(d, t);
    var ok;
    ok, batchStates, stop := engine.Run(batch, false, render);
    if !ok {
      return Aborted, batchStates, [], stop;
    }
    ok, streamStates, stop := engine.Run(stream, true, render);
    if !ok {
      return Aborted, batchStates, streamStates, stop;
    }
    RunsKept(batch, stream, render, d, t, batchStates, streamStates);
    StepsExtend(stream, true, render, d, t, streamStates);
    assert stream[..|stream|] == stream;
    ExtendsTraced(stream, streamStates, |stream|);
    return Completed(engine.flagged), batchStates, streamStates, stop;
  }

  /** Two completed runs of the same logs, as Process describes them, flag the same records. */
  lemma ProcessDetermined(batch: seq<Event>, stream: seq<Event>, render: Render, d: int, t: int,
                          bs: seq<Snapshot>, ss: seq<Snapshot>, bs': seq<Snapshot>, ss': seq<Snapshot>)
    requires Steps(batch, false, render, d, t, bs) && bs[0] == Initial
    requires Steps(stream, true, render, d, t, ss) && ss[0] == bs[|batch|]
    requires Steps(batch, false, render, d, t, bs') && bs'[0] == Initial
    requires Steps(stream, true, render, d, t, ss') && ss'[0] == bs'[|batch|]
    ensures ss[|stream|].flagged == ss'[|stream|].flagged
  {
    TracesAgree(batch, false, render, d, t, bs, bs');
    TracesAgree(stream, true, render, d, t, ss, ss');
  }

  /** Logs that Process can complete it can never abort, and the reverse: the two outcomes exclude each other. */
  lemma ProcessOutcomeExclusive(batch: seq<Event>, stream: seq<Event>, render: Render, d: int, t: int,
                                bs: seq<Snapshot>, ss: seq<Snapshot>, bs': seq<Snapshot>, ss': seq<Snapshot>,
                                stop: nat)
    requires Steps(batch, false, render, d, t, bs) && bs[0] == Initial
    requires Steps(stream, true, render, d, t, ss) && ss[0] == bs[|batch|]
    ensures !(RaisesAt(batch, false, render, d, t, bs', stop) && bs'[0] == Initial)
    ensures !(&& Steps(batch, false, render, d, t, bs') && bs'[0] == Initial
              && RaisesAt(stream, true, render, d, t, ss', stop) && ss'[0] == bs'[|batch|])
  {
    if |bs'| > 0 && bs'[0] == Initial {
      TraceExcludesRaise(batch, false, render, d, t, bs, bs', stop);
      if Steps(batch, false, render, d, t, bs') && |ss'| > 0 && ss'[0] == bs'[|batch|] {
        TracesAgree(batch, false, render, d, t, bs, bs');
        TraceExcludesRaise(stream, true, render, d, t, ss, ss', stop);
      }
    }
  }
}
