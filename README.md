# Anomaly detection on a purchase network, in Dafny

This project models the event engine of `src/process_log.py` in Dafny. That engine reads a log of social-network events: `purchase`, `befriend` and `unfriend`. It keeps an undirected friend map and, for each user, the most recent `T` purchases. A purchase is flagged when its amount exceeds the mean plus three standard deviations of the `T` most recent purchases made in the buyer's `D`-degree neighbourhood. The purchase must not be one of the batch records used to build the initial state.

## Modules

- `order.dfy`, module `PurchaseOrder`: a purchase is the tuple `(timestamp, amount)`. Tuples compare the way Python compares them: lexicographically, with the timestamp as a string first. The lemmas show this is a total order. `Clamp` reads a negative `D` or `T` as 0, which is how the loops treat it.
- `topk.dfy`, module `TopK`: what the engine uses from `heapq`.
  - `IsTop(r, a, n)` is the specification: `r` is the `n` largest of `a`.
  - `PushBounded` is `heappush` plus an overflow `heappop`, proved against `Retain`.
  - `NLargest` is `heapq.nlargest`.
  - Lemmas show that a top-n is unique and survives folding.
- `graph.dfy`, module `FriendGraph`: the friend map, where `Nbrs` reads a missing user as having no friends, like `defaultdict(set)`.
  - `befriend` and `unfriend` preserve symmetry.
  - `Reach` and `WithinHops` define hop distance.
  - The level-counted breadth-first search of `get_friend_purchases` is imperative code (`FriendsWithin`, `ExpandLevel`, `AppendAll`), proved to collect exactly the users 1 to `D` hops away.
- `neighbourhood.dfy`, module `Neighbourhood`:
  - The merge loop `r = nlargest(t, merge(r, purchases[f]))` is proved to give the global top-`T` of the union of the neighbours' histories (`Pooled`), sorted largest first.
  - `GetFriendPurchases` returns their amounts.
  - A worked example on a three-user chain is included.
- `stats.dfy`, module `Statistics`: the test `amount > mean + 3 * std` with numpy's population standard deviation, over exact reals. It is written without a square root, and `ExceedsIsThreeSigma` shows the two forms agree.
- `detector.dfy`, module `Detector`:
  - The class `Engine` holds the mutable state of `process`: `friends`, `purchases` and the flagged list. A ghost field `inserted` notes every tuple ever recorded for each user.
  - `ProcessLine` is `process_line`. Its effect is `LineEffect` on the friend map and the histories, `InsertedAfter` on the recorded tuples, and `NewFlags` appended to the flagged list. When no unfriend raises, this is the relation `LineStep` on `Snapshot` values of the four fields (see `Advance`).
  - `Run` is one of the two `for line in ...` loops. It returns the trace of states, one per record, related by `LineStep` (`Steps`).
  - `Process` runs the batch records without the test and then the stream records with it.
  - The class invariant `Valid` has two parts: the friend map is symmetric, and each history holds the `T` largest tuples recorded for its user. `StepsInserted` and `RunsKept` show that these tuples are exactly the user's purchases in the logs processed so far.

## Model

| member | source | states |
|---|---|---|
| PurchaseOrder.Clamp | src/process_log.py:28-57 | a count as the loops use it: a negative D runs no search level, like D = 0, and a negative T keeps no tuple, like T = 0 |
| PurchaseOrder.StrLe | src/process_log.py:54-58 | Python's str comparison of timestamps: by character code at the first difference, with a proper prefix first |
| PurchaseOrder.Le | src/process_log.py:44-58 | Python's tuple comparison of (timestamp, amount), which orders the heap and nlargest: timestamps first, amounts only when the timestamps are equal |
| PurchaseOrder.LeTotal | src/process_log.py:54-58 | any two (timestamp, amount) tuples are comparable, so the heap of a history has a minimum |
| PurchaseOrder.LeAntisymmetric | src/process_log.py:54-58 | two tuples each at most the other are the same tuple, so the popped minimum is determined |
| PurchaseOrder.LeTransitive | src/process_log.py:54-58 | the tuple order is transitive |
| TopK.MinIndex | src/process_log.py:58 | returns an index whose entry is at most every entry of the heap list, which is what heappop removes |
| TopK.Retain | src/process_log.py:54-58 | the multiset of a history after heappush of the tuple and, when it then holds more than t entries, heappop of one minimum |
| TopK.PushBounded | src/process_log.py:54-58 | the history after heappush and an overflow heappop holds the old entries and the new tuple, less one minimum when it would exceed t entries (`Retain`) |
| TopK.RetainBounded | src/process_log.py:57-58 | a history of at most t entries stays within t entries and holds only old entries and the new tuple |
| TopK.RetainKeepsTop | src/process_log.py:54-58 | if the history was the t largest of everything pushed so far, then after one more push and pop it is the t largest of everything pushed including the new tuple |
| TopK.SortDesc | src/process_log.py:44 | the sort inside nlargest: the list sorted largest first, with the same elements |
| TopK.NLargest | src/process_log.py:44 | nlargest(n, s) is sorted largest first, holds min(n, len(s)) elements of s, and nothing it leaves out is above anything it keeps |
| TopK.TopUnique | src/process_log.py:44 | a multiset has only one top-n, so the result does not depend on how it was computed |
| TopK.SortedUnique | src/process_log.py:44 | two largest-first lists with the same elements are equal |
| TopK.TopFold | src/process_log.py:42-44 | a top-n of (a top-n of a) plus b is a top-n of a plus b, so truncating after each merge loses nothing |
| FriendGraph.Nbrs | src/process_log.py:25 | friends[u] of the defaultdict(set): u's friend set, empty for a user never mentioned |
| FriendGraph.AddFriend | src/process_log.py:71-73 | after befriend, exactly b is added to a's friends and a to b's, every other user's friends are unchanged, and both users become keys |
| FriendGraph.RemoveFriend | src/process_log.py:74-76 | after a completed unfriend, exactly b is removed from a's friends and a from b's, and nothing else changes |
| FriendGraph.CanUnfriend | src/process_log.py:74-76 | unfriend completes without KeyError exactly when b is among a's friends and, after that removal, a is among b's friends |
| FriendGraph.AddFriendSymmetric | src/process_log.py:71-73 | befriend keeps the friend map symmetric and makes a and b friends of each other |
| FriendGraph.AddFriendIdempotent | src/process_log.py:71-73 | a repeated befriend changes nothing, because set.add is idempotent |
| FriendGraph.RemoveFriendSymmetric | src/process_log.py:74-76 | a completed unfriend keeps the map symmetric and leaves a and b not friends |
| FriendGraph.RemoveSelfLoopSymmetric | src/process_log.py:74-76 | the partial state a failing unfriend(a, a) leaves, which has only a's self-loop dropped, is still symmetric |
| FriendGraph.CanUnfriendSymmetric | src/process_log.py:74-76 | on a symmetric map, unfriend completes without raising if and only if a and b are distinct and friends |
| FriendGraph.RemoveUndoesAdd | src/process_log.py:71-76 | unfriend after befriend of two distinct users that were not friends completes (both removals find their element) and restores every user's friend set |
| FriendGraph.WithinHopsByWalks | src/process_log.py:21-37 | a user is in the D-degree neighbourhood of id if and only if it is not id and some walk of 1 to D hops leads from id to it |
| FriendGraph.WithinHopsZero | src/process_log.py:27-28 | with D <= 0 the neighbourhood is empty |
| FriendGraph.AppendAll | src/process_log.py:25-26 | appending the members of a set to the queue keeps the old queue as a prefix and adds exactly the members of the set |
| FriendGraph.ExpandLevel | src/process_log.py:29-36 | one BFS level enters with the users within k hops collected and the hop-(k+1) frontier queued, and leaves with the users within k+1 hops collected and the hop-(k+2) frontier queued; id is never collected and no user is expanded twice |
| FriendGraph.FriendsWithin | src/process_log.py:21-37 | the set the level-counted BFS collects is exactly the users 1 to D hops from id, without id, each expanded once |
| Neighbourhood.Hist | src/process_log.py:43 | purchases[f] of the defaultdict(list): f's history, empty for a user who never bought |
| Neighbourhood.Amounts | src/process_log.py:45 | the amount list has one entry per tuple, namely that tuple's amount, in order |
| Neighbourhood.MergeStep | src/process_log.py:42-44 | one merge-and-truncate step turns a top-t of the histories folded so far into a top-t of those histories plus the next friend's |
| Neighbourhood.MergeRecent | src/process_log.py:41-44 | the merge loop ends sorted largest first with the global top-t of the union of all neighbours' histories, whatever order the friends are visited in |
| Neighbourhood.TopSeqUnique | src/process_log.py:41-44 | any largest-first listing of a top-t is the same list, so the merge result is determined |
| Neighbourhood.PooledIgnores | src/process_log.py:32-34 | histories of users outside the neighbourhood do not take part in the pooled history |
| Neighbourhood.RecentIsGlobalTop | src/process_log.py:38-45 | the recent purchases are sorted largest first, at most T of them, and are the T largest of the union of the neighbours' histories, not T per friend |
| Neighbourhood.RecentEmptyAtDepthZero | src/process_log.py:27-28 | with D <= 0 no amounts are returned |
| Neighbourhood.RecentIgnoresOwnHistory | src/process_log.py:32-34 | the buyer's own history never influences its neighbourhood's recent purchases |
| Neighbourhood.RecentAmountsIgnoreOwnHistory | src/process_log.py:54-61 | recording the purchase in the buyer's history before get_friend_purchases leaves the recent amounts unchanged |
| Neighbourhood.GetFriendPurchases | src/process_log.py:21-45 | returns the amounts of the T largest tuples of the D-degree neighbourhood's pooled histories, largest first; at most T, and none when D <= 0 |
| Neighbourhood.ChainHops | src/process_log.py:21-37 | on the chain A - B - C, A's 1-degree neighbourhood is {B} and its 2-degree neighbourhood is {B, C} |
| Neighbourhood.ChainDepthOne | src/process_log.py:21-45 | on that chain with T = 2 and D = 1, A's recent amounts are B's single amount [10.0] |
| Neighbourhood.ChainDepthTwo | src/process_log.py:21-45 | with T = 2 and D = 2 they are [30.0, 20.0], both C's, so B's purchase is dropped although B is nearer |
| Neighbourhood.PairDepthOne | src/process_log.py:21-45 | when A's only neighbour B has bought 10 and then 20, A's recent amounts with T = 2 and D = 1 are [20.0, 10.0], the later purchase first |
| Statistics.Mean | src/process_log.py:64 | numpy.mean of a non-empty list: the sum divided by the length |
| Statistics.Variance | src/process_log.py:63 | the square of numpy.std with ddof = 0: the mean squared deviation from the mean |
| Statistics.Exceeds | src/process_log.py:63-65 | the test amount > mean + 3 * std without a square root: amount above the mean and its squared distance above 9 times the variance; false for an empty list, where numpy gives nan |
| Statistics.VarianceNonNegative | src/process_log.py:63 | the variance of a non-empty list is non-negative, so its standard deviation exists |
| Statistics.ExceedsIsThreeSigma | src/process_log.py:63-65 | for the non-negative root sd of the variance, the test holds if and only if amount > mean + 3 * sd |
| Statistics.ExceedsConstant | src/process_log.py:63-65 | when every neighbourhood amount is y, the mean is y and the deviation 0, so the test holds if and only if amount > y |
| Statistics.ExceedsOneAmount | src/process_log.py:63-65 | a single neighbourhood amount y flags every amount above y |
| Statistics.ExceedsMonotone | src/process_log.py:65 | a flagged amount is above the mean, and every larger amount against the same neighbourhood is flagged too |
| Statistics.TwoAmounts | src/process_log.py:63-65 | against the amounts 20 and 10 the mean is 15 and the variance 25 (std 5), and exactly the amounts above 30 are flagged |
| Detector.FlagsFor | src/process_log.py:59-68 | a purchase appends itself, with the rendered mean and std of the recent amounts, exactly when the test is on and its amount exceeds mean + 3 * std |
| Detector.Extends | src/process_log.py:65-68 | the flagged list is unchanged, or grew by one record of the given purchase |
| Detector.FlagsForExtends | src/process_log.py:65-68 | a purchase appends at most one record to the flagged list, namely itself |
| Detector.LineEffect | src/process_log.py:48-76 | by event type: a purchase changes only the buyer's history, by Retain; befriend gives AddFriend; a completed unfriend gives RemoveFriend, a failing one what the removals before the raise left; any other record changes nothing |
| Detector.NewFlags | src/process_log.py:59-68 | the records process_line appends: for a purchase, FlagsFor against the recent amounts of the state after the purchase was recorded; nothing for other records |
| Detector.NewFlagsShape | src/process_log.py:59-68 | a record appends at most one flagged record, of itself and only if it is a purchase, and none without the test |
| Detector.Recorded | src/process_log.py:54-58 | only the buyer's history changes, and its multiset becomes Retain of the old one |
| Detector.HistoriesKept | src/process_log.py:54-58 | each user's history is the T largest of the tuples recorded for the user |
| Detector.KeptForAfterRecord | src/process_log.py:54-58 | after recording x for id, a user's history is still the T largest of everything recorded for it |
| Detector.KeptAfterRecord | src/process_log.py:54-58 | recording a purchase keeps every user's history the T largest tuples ever recorded for that user |
| Detector.SingleAmountFlags | src/process_log.py:59-68 | on the chain with D = 1 and T = 2, a purchase of 20 by A is flagged against the single neighbourhood amount 10 |
| Detector.InsertedAfter | src/process_log.py:54 | a purchase adds its tuple to what is recorded for the buyer; other records add nothing |
| Detector.LineStep | src/process_log.py:48-76 | the record does not raise (an unfriend finds both friend entries), and its whole effect on the four fields is LineEffect on the friend map and histories, InsertedAfter on what is recorded, and exactly NewFlags appended to the flagged list |
| Detector.Steps | src/process_log.py:99-104 | a trace of a loop: one state before the records and one after each, each record taking its state to the next by LineStep |
| Detector.RaisesAt | src/process_log.py:74-76 | the records before position stop form a trace, and the record at stop is an unfriend that raises KeyError in the state the trace reaches |
| Detector.StepAt | src/process_log.py:99-104 | in a trace, the k-th record takes the k-th state to the next by LineStep |
| Detector.StepsWithoutTest | src/process_log.py:99-100 | a trace of records processed without the test ends with the flagged list it started with |
| Detector.StepExtends | src/process_log.py:99-104 | in a trace, each record appends at most one flagged record, and that record is itself |
| Detector.StepsExtend | src/process_log.py:99-104 | the same for every record of the trace at once |
| Detector.Origins | src/process_log.py:99-104 | the positions of the records of a trace that appended a flagged record, in order |
| Detector.ExtendsTraced | src/process_log.py:99-104 | when each record appends at most its own flag, the records appended are the purchases at the positions Origins gives, in order |
| Detector.PurchasesOf | src/process_log.py:50-54 | the tuples a sequence of records pushes onto u's history |
| Detector.InsertedFold | src/process_log.py:54 | when each record updates what is recorded by InsertedAfter, what is recorded for u grows by exactly u's purchases among the records |
| Detector.StepsInserted | src/process_log.py:99-104 | along a trace, what is recorded for u grows by exactly u's purchases among the records |
| Detector.RunsKept | src/process_log.py:54-58 | after the batch from the empty state and then the stream, each history that is the T largest of what was recorded is the T largest of the user's purchases in the two logs |
| Detector.PairFlags | src/process_log.py:59-68 | against those two amounts, mean 15 and std 5, a purchase by A is flagged exactly when its amount is above 30 |
| Detector.StrangersRaise | src/process_log.py:74-76 | from the empty state, an unfriend of two users who were never friends raises: no trace passes it, and RaisesAt holds at it |
| Detector.BefriendThenUnfriend | src/process_log.py:71-76 | from the empty state, befriend and then unfriend of the same pair never raises |
| Detector.StepAgree | src/process_log.py:48-76 | process_line from two states with the same friend map, the same history multisets, the same recorded tuples and the same flagged list leaves two such states |
| Detector.AgreeUpTo | src/process_log.py:99-104 | two traces of logs with the same first k records, from agreeing states, agree at position k |
| Detector.TracesAgree | src/process_log.py:99-104 | two traces of the same records from agreeing states agree at every position and end with the same flagged list: processing is deterministic |
| Detector.TraceExcludesRaise | src/process_log.py:74-76 | a log that runs to its end from some state raises from no agreeing state |
| Detector.RaiseUnique | src/process_log.py:74-76 | from agreeing states a log can raise at one position only |
| Detector.Engine.constructor | src/process_log.py:89-96 | the engine starts with an empty friend map, empty histories and an empty flagged list, and its invariant holds |
| Detector.Engine.RecordPurchase | src/process_log.py:54-58 | only the buyer's history changes, to the multiset Retain gives; it stays within T entries and the invariant holds |
| Detector.Engine.Befriend | src/process_log.py:71-73 | the friend map becomes AddFriend of the old one and stays symmetric |
| Detector.Engine.Unfriend | src/process_log.py:74-76 | ok exactly when both removals find their element. Then the map is RemoveFriend of the old one; otherwise it is what the removals before the raise left. Either way it stays symmetric |
| Detector.Engine.FlagIfAnomalous | src/process_log.py:59-68 | the flagged list grows by the record, with its rendered mean and sd, exactly when its amount exceeds mean + 3 * sd of the neighbourhood's recent amounts |
| Detector.Engine.HandlePurchase | src/process_log.py:50-68 | the purchase is first recorded in the buyer's history and noted as recorded; the flagged list then grows by the record exactly when the test is on and the amount exceeds mean + 3 * sd of the recent amounts |
| Detector.Engine.ProcessLine | src/process_log.py:48-76 | the record is routed by event type. It yields the new friend map and histories `LineEffect` gives, notes a purchase as recorded (`InsertedAfter`), appends exactly `NewFlags`, keeps the invariant, and fails exactly when an unfriend raises |
| Detector.Engine.Advance | src/process_log.py:99-104 | one pass of a loop in process fails exactly when an unfriend raises. When it does not, it takes the engine state to the next by LineStep; when it does, the friend map is what the first removal left and nothing else changes. It keeps the invariant and appends nothing without the test |
| Detector.Engine.Run | src/process_log.py:99-104 | processing the records in order keeps the invariant and appends nothing without the test. When no unfriend raises, the returned states start at the old state, end at the new one, and are a trace (Steps), so the final friend map, histories and flagged list are those LineStep gives record by record. Otherwise `stop` is the first unfriend that raises (RaisesAt): the states trace the records before it, and the engine is left with what the raising unfriend's first removal did to the last of them |
| Detector.TracedStep | src/process_log.py:99-104 | one more record that appends at most its own flag keeps the trace of flagged records to their purchases |
| Detector.TracedMeans | src/process_log.py:99-104 | a trace means the flagged list is the old list followed by one record per traced position, each the purchase at that position, with positions increasing |
| Detector.Process | src/process_log.py:84-104 | the batch runs from the empty state and the stream from where it ends, each as a trace (Steps), and the result is the final flagged list. The batch flags nothing. Every flagged record is a stream purchase, in stream order. At the end the friend map is symmetric and each history is the T largest of the user's purchases in the two logs. It is aborted exactly when an unfriend raises: at `stop` in the batch, or in the stream after the whole batch (RaisesAt) |
| Detector.ProcessDetermined | src/process_log.py:84-104 | two completed runs of the same batch and stream logs flag the same records |
| Detector.ProcessOutcomeExclusive | src/process_log.py:84-104 | logs that can be processed to completion can never abort, in the batch or in the stream |

## Left out

- Reading the input files (`load_file`), `sys.argv`, writing the output file, and the two `print(flagged_purchases)` calls are I/O and are not modelled. `Process` takes `D`, `T`, the batch records without their first line, and the stream records as parameters. It returns the flagged list instead of writing it.
- Parsing is not modelled: JSON decoding, skipping undecodable lines, `float(line['amount'])` and `int(init_data[0]['D'])`. So are the `KeyError`/`IndexError`/`ValueError` of malformed records or an empty batch file. A record is one of the four `Event` shapes, and an unknown `event_type` is `Other`, which changes nothing.
- Floating point is not modelled. Amounts are exact reals, and numpy's mean and standard deviation are computed exactly (`Statistics`), so rounding at the boundary of the test can differ. The `"{:0.2f}"` renderings of the mean and the standard deviation are the parameter `render`.
- The documented behaviour of the system is that a neighbourhood with fewer than two amounts never flags. The code flags a purchase above a single neighbourhood amount, because the standard deviation is then 0. The model follows the code (see `Statistics.ExceedsOneAmount` and `Detector.SingleAmountFlags`). With no amounts, numpy yields nan, the comparison is false, and nothing is flagged; `Exceeds` is false on an empty list.
- Heap order is not modelled. Only the multiset of a history is specified. `heappop` is modelled as removing a minimum found by a linear scan, not by CPython's sift-down, so the order of the stored list differs from CPython's. Nothing the engine computes depends on that order.
- `heapq.merge` is modelled as concatenation. It yields every element of both inputs. The histories are heap lists, not sorted lists, and `nlargest` that follows depends only on the multiset.
- The iteration order of Python sets (`friends[u]`, `all_friends`) is a nondeterministic choice. The results are proved not to depend on it.
- Reading `friends[u]` or `purchases[f]` of a `defaultdict` inserts an empty entry. The model reads a missing key as empty without inserting it, and the inserted keys do not affect anything the engine observes.
- The flagged record is the input dictionary mutated in place, with `mean` and `sd` added. The model pairs the event with the two strings; the aliasing is not modelled.
- An unfriend raises `KeyError` from `set.remove`, which ends the program, in two cases. The first is an unfriend of two users that are not friends. The second is `unfriend(a, a)` after `befriend(a, a)`: the code lets befriend of a user with itself make a self-loop, the first removal deletes it, and the second finds nothing to remove. The model returns `ok == false` and stops the run (`Aborted`). The friend map is then left as the removals before the raise left it.
- Detector.Process: when aborted it returns no flagged list, as the program ends with the uncaught `KeyError` before writing any output.
