# Clustering, trajectories and indices of the UAV data-collection simulator

A Dafny model of the parts of the repository that compute something: the clustering and
trajectory planner of the `wu2019` routing module, the size classes of the vendored memory
pool, the balancing index of the statistics page, and the neighbour lists of the client.

## What is modelled

**The planner** (`Castalia/wu2019/wu2019.cc`) is the class `Planner.GPRouting`, with the
source's vectors as fields that its methods update. Energies, weights and lengths are reals.
Around the class stand the theories its contracts use:

- `Searching`, `Distances`: one invariant for the three Dijkstra loops, with the relaxation
  tolerance, the pruning bound and the early stop as parameters, and what a finished search
  knows. `ClusterSearch` and `BallSearch` are the two searches from one node.
- `PriorityQueue`, `QueueRuns`, `UnitDisk`: the heap, growBalls with it, and the graphs
  `UDG::init` builds. `CircleNetwork` and `StalePops` are one such graph and one such run.
- `Cells`: the cells growBalls leaves and what computeBallWeight adds up over them.
- `Peeling`: the fringe of an overloaded cell, and the trimming of heads.
- `PlannerState`: what the methods say about the vectors.
- `Recruiting`: TZ_sample2 as a transition system, with its rounds and runs.
- `Rounds`: the balancing loop as a run over whole snapshots of the vectors, and what one
  energy level comes to.
- `Capacity`: the scan that bounds the number of heads.
- `Trajectories`, `Bisection`: the wedges and the search for the energy level.

Random choices are nondeterministic: which candidate is looked at, which nodes pass the
random test, what order mainTSP returns. Code outside the file is a parameter of the
constructor: the graph, `estimateMaxWeight`, angles, distances, energies. The graph is any
graph whose edges are no longer than the range d0 and do not enter the sink; no contract
needs it to be symmetric. The graphs `UDG.h` builds from points of the plane are
`UnitDisk.Placed`, for the statements that need the triangle inequality. `DBL_MAX` is any
number above the length of a path through all nodes plus the tolerance, and EPSILON is
0.0001.

**The priority queues.** The comparator reads keys that fall while entries wait in
`std::priority_queue`, which does not restore its order by itself. A pop therefore returns
any entry, and every contract about the three searches holds for every pop order. Where a
statement needs least pops, the parameter `extractMin` says so: it is an assumption about
the queue, and one the source does not meet. `PriorityQueue` is the heap of
`std::priority_queue` as libstdc++ keeps it, `QueueRuns` the search of growBalls with that
heap, and `StalePops` a run of it, on the network of `CircleNetwork`, that ends with a label
too large. `UnitDisk` and `QueueRuns` give conditions under which the labels are near the
distances nevertheless. The queues of verifyFringeSet and of the trim step have keys that
stand still and pop a least entry. A ghost field, `settled`, records removedSet in the order
it grew.

## What differs from what the code suggests

- The labels of `growBalls` need not be near the distances. On twelve points of the plane,
  with one head, the heap of `std::priority_queue` pops a node before a nearer one after a
  key fell in it, and node 3 ends with label 42818504 although a path of length 41194858
  reaches it (`StalePops.QueueOvershoots`). For any order of pops the labels are exact, but
  for the tolerance, if and only if every edge back to a node settled earlier is relaxed
  (`Distances.LabelsExactIff`). Conditions that lead to it: no key falls in the queue
  (`QueueRuns.SteadyRunIsLeast`); on points of the plane, no node is settled more than the
  range d0 beyond the parent of one that waits (`UnitDisk.TameLabelBound`); and, on the
  input alone, a single head in range of all nodes (`UnitDisk.OneHopIsTame`).
- The scan for `k_max` copies and sorts `w_max` but then adds up the unsorted vector. Its
  count is a lower bound on the number of heads needed exactly when the first m capacities
  in node order exceed `w_total`, m being how many of the largest do
  (`Capacity.ScanIsLowerBoundIff`, `Capacity.ScanCanOvershoot`).
- `computeBallWeight` appends every node to a list that growBalls had filled already, so
  nodes that are not heads are weighed twice. The model does the same; `Cells` states the
  single count before, the double count after, and that the real load is never more.
- When no prefix of `w_max` exceeds `w_total`, `k_max` is read uninitialised. The model stops
  there and says so in its result; `Capacity.ScanFailsIff` and `GPRouting.NoCapacityIff` say
  when that happens, `Capacity.ScanCanFail` gives an input.
- The balancing loop gives up after 52 rounds, and `mainAlg` saves what it left even if some
  head is overloaded. Without the timeout every saved head can carry what is assigned to it
  (`GPRouting.SavedIsGood`). The timeout is an outcome of the loop; a condition on the
  capacities is proved in the sufficient direction only: a node too heavy for every head
  (`Rounds.TooHeavy`) makes the loop time out and the saved configuration overload a head
  (`GPRouting.TimeoutSavesOverload`). `GPRouting.TimeoutInput` is such an input with the
  equal weights of line 34.
- `maxThres` is never assigned; it is an arbitrary number here.
- With at least as many heads as UAVs, of the last (size of A) mod numUAVs heads by angle
  only the sink, if it is one of them, is on a trajectory (`Trajectories.VisitedIff`;
  `Trajectories.ThirdHeadUnvisited` gives an input).
- A sink that has enough capacity can become a head; all contracts allow for it.
- `free` of a non-null block with a size from -7 to 0 below the limit looks up index -1
  (`Allocator.Memory.FreeDefinedIff`).

Comments in `Planner.dfy` give the lines of `wu2019.cc`.

## Model

| member | source | states |
|---|---|---|
| Searching.SettleKeeps | Castalia/wu2019/wu2019.cc:250-260 | Settling a popped, unsettled node keeps the search invariant (every reached node hangs on an earlier settled one, exactly the nodes below their bound were queued, every edge out of the settled set is relaxed up to the tolerance), for any pop; settling order by label survives when the pop was a least one. |
| Searching.RelaxKeeps | Castalia/wu2019/wu2019.cc:262-276 | Looking at one neighbour, whether the tolerance test succeeds or not, keeps the same invariant with one more edge accounted for; the same step serves growBalls, computeClusterWeight and TZ_sample2. |
| Searching.DropStaleKeeps | Castalia/wu2019/wu2019.cc:259 | Skipping an entry of a node settled earlier keeps the invariant. |
| Distances.SettledHasPath | Castalia/wu2019/wu2019.cc:246-277 | For any pop order every settled node has a real path from the head in `cent`, exactly as long as its label, that stays inside that head's cell (so cells are connected). |
| Distances.EarlierNeighbour | Castalia/wu2019/wu2019.cc:261-270 | For any pop order a settled node that is no head has an earlier settled neighbour in the same cell, from which its label is one edge length more. |
| Distances.SettlesExactlyReachable | Castalia/wu2019/wu2019.cc:248-277 | For any pop order a search that prunes nothing settles a node if and only if it is reachable from a source. |
| Distances.PathBelowBound | Castalia/wu2019/wu2019.cc:262-276 | With least pops: along any path whose cost, with the tolerances charged per hop, stays below the bound of its end, the end is settled and labelled at most the path's length plus the slack per hop. |
| Distances.LabelUpperBound | Castalia/wu2019/wu2019.cc:266-270 | With least pops: on every path from a source with h hops, label <= length + h * slack (EPSILON in growBalls). |
| Distances.LabelsAreDistances | Castalia/wu2019/wu2019.cc:323-327 | With least pops and no tolerance the labels are exactly the distances from the sources. |
| Distances.LabelsExactIff | Castalia/wu2019/wu2019.cc:246-277 | For any pop order, tolerance aside: all labels are the distances if and only if every edge back to a node settled earlier is relaxed. |
| Distances.BackRelaxedLabels | Castalia/wu2019/wu2019.cc:246-277 | For any pop order, with the tolerance: then no label exceeds the length of a path by more than EPSILON per hop. |
| QueueRuns.PopsKeep | Castalia/wu2019/wu2019.cc:248-277 | Every sequence of pops that takes entries from the queue keeps the search invariant; with least pops its ordered form. |
| QueueRuns.LeastPopsAreExact | Castalia/wu2019/wu2019.cc:248-277 | A run with least pops that empties the queue labels no node by more than EPSILON per hop above the length of any path from a head. |
| PriorityQueue.PopKeeps | Castalia/wu2019/wu2019.cc:249-251 | A pop of the heap removes its top entry and no other, whatever happened to the keys. |
| PriorityQueue.PushKeeps | Castalia/wu2019/wu2019.cc:270 | A push adds the entry and loses none, whatever happened to the keys. |
| PriorityQueue.PopOrders | Castalia/wu2019/wu2019.cc:249-251 | A pop of an ordered heap leaves it ordered. |
| PriorityQueue.PushOrders | Castalia/wu2019/wu2019.cc:270 | A push to an ordered heap leaves it ordered. |
| PriorityQueue.TopIsLeast | Castalia/wu2019/wu2019.cc:119-121 | The top of an ordered heap has a least key. |
| QueueRuns.HeapRunIsLegal | Castalia/wu2019/wu2019.cc:248-277 | The loop with the heap of std::priority_queue is a legal run of the search, with the same labels, heads and settled nodes. |
| QueueRuns.RunFinishes | Castalia/wu2019/wu2019.cc:248-277 | That loop ends, in a finished search in which every node has the label it was settled with. |
| QueueRuns.SteadyRunIsLeast | Castalia/wu2019/wu2019.cc:248-277 | As long as no key falls in the queue the heap stays ordered and every pop is a least one. |
| StalePops.QueueOvershoots | Castalia/wu2019/wu2019.cc:233-277 | A network that UDG::init builds, and the run of growBalls with the heap of std::priority_queue from its start to the empty queue: a label ends above the length of a path by far more than EPSILON per hop. |
| StalePops.KeyFalls | Castalia/wu2019/wu2019.cc:263-270 | In the fourth round of that run the key of a waiting node falls, its old entries stay where they are, and the heap is no longer ordered. |
| StalePops.PopIsNotLeast | Castalia/wu2019/wu2019.cc:249-251 | The ninth pop of that run takes a node while an unsettled one with a smaller key waits. |
| CircleNetwork.DiskIsPlaced | Castalia/Castalia/src/helpStructures/UDG.h:25-44 | That network is one of points in the plane with Euclidean lengths: two nodes are joined exactly if they are closer than the range. |
| UnitDisk.PlacedMeans | Castalia/Castalia/src/helpStructures/UDG.h:25-44 | Such networks written out: nodes are joined exactly if their squared distance is below the squared range, by an edge as long as their distance. |
| UnitDisk.DirectIsShorter | Castalia/Castalia/src/helpStructures/UDG.h:25-44 | On such networks a direct edge is never longer than two edges in a row, and without one the two are at least as long as the range. |
| UnitDisk.TameLabelBound | Castalia/wu2019/wu2019.cc:246-277 | On such networks, whatever the order of pops: if no node is settled more than the range (and the tolerance) beyond the parent of one that already had its last label, nor before a head with a positive label, no label exceeds the length of a path by more than EPSILON per hop. |
| UnitDisk.LeastIsTame | Castalia/wu2019/wu2019.cc:246-277 | Every run with least pops meets that condition. |
| UnitDisk.OneHopIsTame | Castalia/wu2019/wu2019.cc:246-277 | Every run around a single head in range of all nodes meets it, for any pop order. |
| ClusterSearch.SettledIsNearer | Castalia/wu2019/wu2019.cc:322-329 | For any pop order computeClusterWeight settles, besides its start, only nodes strictly nearer to it than their landmark label. |
| ClusterSearch.NearerIsSettled | Castalia/wu2019/wu2019.cc:322-329 | With least pops and labels that grow along edges by at most length + tolerance, every node nearer than its label by the tolerance per hop is settled. |
| ClusterSearch.SettlesExactlyTheCluster | Castalia/wu2019/wu2019.cc:309-336 | Given exact landmark distances and least pops, the settled set is exactly u and the nodes v with dist(u,v) < dLandmark[v]: the pruned search loses no member. |
| ClusterSearch.GrownLandmarksLoseLittle | Castalia/wu2019/wu2019.cc:233-336 | With the labels growBalls really leaves (tolerance EPSILON), the pruned search still finds every node that is nearer by more than EPSILON per hop. |
| Planner.GPRouting.ClearData | Castalia/wu2019/wu2019.cc:475-487 | Every non-sink node gets label 0 or DBL_MAX by its mark, head -1 and an empty list; the sink's entries are untouched. |
| Planner.GPRouting.constructor | Castalia/wu2019/wu2019.cc:175-188 | The parameters as given, no heads, no marks, no configuration, every vector with a start value for each node, one empty trajectory per UAV. |
| Planner.GPRouting.ResetHeads | Castalia/wu2019/wu2019.cc:235-239 | Each head gets label 0, itself as head and an empty list; the entries of all other nodes stay. |
| Planner.GPRouting.StartBalls | Castalia/wu2019/wu2019.cc:235-245 | The heads get label 0, themselves as head and an empty list, are queued, and a valid search begins; other nodes keep their entries. |
| Planner.GPRouting.RelaxBall | Castalia/wu2019/wu2019.cc:263-270 | One edge: label and head change and the neighbour is pushed exactly if it is not settled and the new label is lower by more than 0.0001; the search stays valid with that edge accounted for. |
| Planner.GPRouting.RelaxBalls | Castalia/wu2019/wu2019.cc:262-276 | Relaxing all edges out of the node settled last keeps the search valid; settled and unreached nodes keep label and head. |
| Planner.GPRouting.SettleBall | Castalia/wu2019/wu2019.cc:260-276 | Settling a node appends it to the list of its own head unless it is a head, and the search stays valid after all its edges. |
| Planner.GPRouting.PopBall | Castalia/wu2019/wu2019.cc:249-276 | One round of the loop settles a new node or drops a stale entry and keeps search and lists right, whatever entry is popped. |
| Planner.GPRouting.SettleBalls | Castalia/wu2019/wu2019.cc:248-277 | The loop terminates for any pop order in a finished search; each head's list holds exactly the settled non-heads of its cell, in settling order. |
| Planner.GPRouting.TickOff | Castalia/wu2019/wu2019.cc:283-286 | A list is reported exactly when it repeats a node or meets one ticked off before. |
| Planner.GPRouting.CountBalls | Castalia/wu2019/wu2019.cc:278-288 | The diagnostic never reports a violation, and its total is the number of settled non-heads: the lists partition them. |
| Planner.GPRouting.AppendAll | Castalia/wu2019/wu2019.cc:431-433 | Every list is extended by exactly the non-sink nodes assigned to its head, in increasing order. |
| Planner.GPRouting.WeighList | Castalia/wu2019/wu2019.cc:439-442 | The sum of the weights over the list, repetitions counted. |
| Planner.GPRouting.WeighBalls | Castalia/wu2019/wu2019.cc:435-451 | ballWeight has exactly the heads as keys and the weight of each head's list, repetitions counted, as value. |
| Planner.GPRouting.ComputeBallWeight | Castalia/wu2019/wu2019.cc:426-453 | The lists become the doubled lists as coded, and ballWeight weighs them; lists of other nodes stay. |
| Planner.GPRouting.GrowBalls | Castalia/wu2019/wu2019.cc:233-290 | For any pop order: a finished search from A, a partition of the nodes into cells, doubled lists, ball weights; unreached nodes and the lists of non-heads are unchanged. |
| Planner.GPRouting.LabelIsPath | Castalia/wu2019/wu2019.cc:246-277 | After growBalls each non-sink node has a path from its head, inside the cell, as long as its label. |
| Planner.GPRouting.LabelIsNearlyLeast | Castalia/wu2019/wu2019.cc:246-277 | After growBalls with least pops no path from any head is shorter than the label by more than 0.0001 per hop. |
| Planner.GPRouting.TameLabelIsNearlyLeast | Castalia/wu2019/wu2019.cc:246-277 | After growBalls on points of the plane, in any tame order of pops, no path from any head is shorter than the label by more than EPSILON per hop. |
| Planner.GPRouting.OneHopLabelIsNearlyLeast | Castalia/wu2019/wu2019.cc:246-277 | The same for any order of pops around a single head in range of all nodes. |
| Cells.ListsPartition | Castalia/wu2019/wu2019.cc:261 | Before computeBallWeight a node is in the list of its own head exactly once, and in no other head's list. |
| Cells.BallWeightCountsTwice | Castalia/wu2019/wu2019.cc:426-451 | The weight of a doubled list is the head's weight once (nothing for a sink head) plus twice the weight of the other nodes of the cell. |
| Planner.GPRouting.BallWeightMeaning | Castalia/wu2019/wu2019.cc:426-451 | The same about the field ballWeight after growBalls. |
| Cells.LoadWithinBallWeight | Castalia/wu2019/wu2019.cc:426-451 | The load a head really carries never exceeds its ballWeight. |
| Cells.BallWeightsConserve | Castalia/wu2019/wu2019.cc:426-451 | Summed over all heads, ballWeight is twice the weight of the non-sink nodes less the weight of the non-sink heads. |
| Cells.FittingNeedsCapacity | Castalia/wu2019/wu2019.cc:566-572 | If every ball fits its head, the heads' capacities add up to at least that double-counted total. |
| Planner.GPRouting.SearchCluster | Castalia/wu2019/wu2019.cc:311-330 | The pruned loop terminates for any pop order; removedSet holds only the start and nodes nearer to it than their landmark label, and with least pops and exact landmark distances exactly those. |
| Planner.GPRouting.RelaxClusterEdge | Castalia/wu2019/wu2019.cc:322-328 | One edge of the pruned search: a strictly smaller label is taken, and pushed only below the landmark label; the search stays valid. |
| Planner.GPRouting.WeighSet | Castalia/wu2019/wu2019.cc:331-334 | The sum over a set, taken in any order, is the weight of the set. |
| Planner.GPRouting.ComputeClusterWeight | Castalia/wu2019/wu2019.cc:309-336 | The result is the total weight of the settled set; with least pops and exact landmark distances that is the weight of the cluster {u} and {v : dist(u,v) < dLandmark[v]}. |
| Planner.GPRouting.PeelCell | Castalia/wu2019/wu2019.cc:348-358 | With capacity >= 0 the queue is never popped empty, and the nodes peeled are the shortest closest-first selection that brings the cell's weight down to the capacity. |
| Planner.GPRouting.VerifyFringeSet | Castalia/wu2019/wu2019.cc:338-362 | The fringe is the concatenation, head by head, of those selections; nothing is taken from a cell that fits. |
| Peeling.QueueNotEmpty | Castalia/wu2019/wu2019.cc:351-358 | While the running weight exceeds a non-negative capacity, some entry is still queued. |
| Peeling.NegativeCapacityNeverMet | Castalia/wu2019/wu2019.cc:351-358 | With a negative capacity no selection relieves the cell, so the loop would pop an empty queue: capacity >= 0 is exactly what an overloaded head needs. |
| Peeling.PeeledIsShortest | Castalia/wu2019/wu2019.cc:351-358 | Among the starts of a peeled list, only the whole list brings the weight down to the capacity. |
| Peeling.PeeledMeans | Castalia/wu2019/wu2019.cc:348-358 | Peeled nodes come closest first, none left behind is closer, each was needed, and the rest fits the capacity. |
| Planner.GPRouting.SearchBall | Castalia/wu2019/wu2019.cc:376-407 | For any pop order the search yields a ball: the settled nodes that fit the capacity, all that are reachable or all before the first that does not fit; its candidates leave W and are weighed. |
| Planner.GPRouting.NextSettled | Castalia/wu2019/wu2019.cc:386-390 | For any pop order the next node not settled before, or the news that the queue is exhausted and the search finished. |
| Planner.GPRouting.GrowBall | Castalia/wu2019/wu2019.cc:387-407 | One more node of the ball within capacity, or the finished ball: everything reachable, or all but the first node that does not fit. |
| Planner.GPRouting.Capture | Castalia/wu2019/wu2019.cc:393-397 | A node that joins the ball leaves W with all its copies, is recorded once, and its weight is added, exactly if it was in W. |
| BallSearch.BallIsClosestFirst | Castalia/wu2019/wu2019.cc:386-407 | With least pops the ball's labels are distances, and no path to a node outside is shorter than the distance of a node inside. |
| Planner.GPRouting.TryCandidate | Castalia/wu2019/wu2019.cc:376-420 | One try: the ball is accepted exactly when no trial is left or its candidates weigh more than maxThres / 2; an acceptance marks and appends the head, leaves the candidates outside the ball and three trials; a rejection leaves all candidates and one trial less. |
| Planner.GPRouting.TZSample2 | Castalia/wu2019/wu2019.cc:364-424 | For every choice of candidates the call is a complete run of such rounds from three trials; its result and the marks are the run's. |
| Planner.GPRouting.AcceptedAboveHalf | Castalia/wu2019/wu2019.cc:368-421 | In every run a ball is accepted exactly if its candidates weigh more than maxThres / 2 or three balls were rejected since the start or the last acceptance, discards not counted; never more than three are. |
| Recruiting.RunStep | Castalia/wu2019/wu2019.cc:370-416 | What each round of a run does to the candidates with their copies, the marks and the heads: a discard removes one marked node, an acceptance the ball, a rejection nothing but copies. |
| Recruiting.TrialsLeft | Castalia/wu2019/wu2019.cc:408-418 | The trials left are three less the rejections since the start or the last acceptance. |
| Recruiting.AcceptedIff | Castalia/wu2019/wu2019.cc:408 | The same law of acceptances for any threshold. |
| Recruiting.BallIsMaximal | Castalia/wu2019/wu2019.cc:386-407 | An accepted ball weighs no more than its head's capacity, and it holds every reachable node or the next one settled would exceed the capacity. |
| Recruiting.RoundShrinks | Castalia/wu2019/wu2019.cc:368-421 | Every round lowers 4 * (distinct candidates + distinct unmarked candidates) + trials, although rejected rounds push nodes back and accepted ones reset the trials. |
| Recruiting.RunsEnd | Castalia/wu2019/wu2019.cc:368-421 | No run is longer than that rank of its start: termination for every sequence of random choices. |
| Recruiting.RunKeepsHeadsFresh | Castalia/wu2019/wu2019.cc:370-412 | The new heads are distinct, were unmarked candidates, and the marks are the old ones plus the new heads. |
| Recruiting.AcceptedBallsFit | Castalia/wu2019/wu2019.cc:391-412 | Every accepted ball is a ball of a recruited head, within that head's capacity unless empty. |
| Recruiting.RunCovers | Castalia/wu2019/wu2019.cc:364-424 | When the run ends, each initial candidate was marked, is a new head, or lies in the ball of an accepted head; an unmarked candidate forces a new head. |
| Planner.GPRouting.TZSample | Castalia/wu2019/wu2019.cc:203-231 | With a draw that is not empty: all of W when it is smaller than s, else distinct unmarked nodes of W; marks grow by exactly the result, which is empty only for empty W. |
| Planner.GPRouting.DrawUnmarked | Castalia/wu2019/wu2019.cc:213-227 | Distinct, formerly unmarked nodes of W, at least one; marks grow by exactly these. |
| Planner.GPRouting.RecruitNewCHsAlpha | Castalia/wu2019/wu2019.cc:455-473 | The same, and the cells are grown again; A keeps its heads and lists exactly the marked nodes. |
| Rounds.FringeIsServed | Castalia/wu2019/wu2019.cc:455-473 | In every round of the loop each peeled node with w_max >= w_min was a head, is recruited, or lies in a recruited head's ball. |
| Rounds.RecruitsArePeeled | Castalia/wu2019/wu2019.cc:455-473 | Whoever a round recruits was peeled in it, has w_max >= w_min, and was no head. |
| PlannerState.JoinedMeans | Castalia/wu2019/wu2019.cc:338-362 | The fringe is the parts of all heads one after the other, and holds what some part holds. |
| Planner.GPRouting.RecruitFromFringe | Castalia/wu2019/wu2019.cc:458-468 | The fringe is peeled head by head; every peeled node with w_max >= w_min was a head, is recruited or lies in a recruited head's ball, and every new head is such a node and was no head. |
| Planner.GPRouting.KeepStrong | Castalia/wu2019/wu2019.cc:461-463 | Exactly the fringe nodes with w_max >= w_min, each as often as it occurs, in the order of the fringe. |
| Planner.GPRouting.Regrow | Castalia/wu2019/wu2019.cc:470-471 | clearData and growBalls(A) leave grown cells for the current heads. |
| Peeling.DropLightest | Castalia/wu2019/wu2019.cc:556-561 | Dropping the head on top of the queue keeps the invariant that no dropped ball outweighs a kept one, and the order of A. |
| Planner.GPRouting.TrimHeads | Castalia/wu2019/wu2019.cc:548-562 | Exactly k_max heads stay, in order, none lighter than a dropped one; A still lists exactly the marked nodes. |
| Planner.GPRouting.DropOne | Castalia/wu2019/wu2019.cc:557-560 | One head with a least ball is dropped and unmarked; the queue and A stay the same multiset. |
| Planner.GPRouting.AnyOverloaded | Castalia/wu2019/wu2019.cc:566-572 | True exactly when some entry of ballWeight exceeds the capacity of its head. |
| Planner.GPRouting.ScanCapacity | Castalia/wu2019/wu2019.cc:506-513 | The loop finds the first prefix in node order whose w_max exceeds w_total, or none. |
| Capacity.GreedyIsBest | Castalia/wu2019/wu2019.cc:503-513 | No set of nodes has more capacity than equally many from the front of a descending order. |
| Capacity.DescendingScanIsLowerBound | Castalia/wu2019/wu2019.cc:503-513 | A scan over the sorted copy would give a true lower bound on the number of heads needed. |
| Capacity.ScanIsLowerBoundIff | Castalia/wu2019/wu2019.cc:503-513 | The scan as coded reads w_max, not the sorted copy: its count is a lower bound if and only if the first m capacities in node order exceed w_total, m being how many of the largest it takes. |
| Capacity.ScanNeverUndershoots | Castalia/wu2019/wu2019.cc:503-513 | The coded count is never below that of the sorted copy. |
| Capacity.SortedScanStops | Castalia/wu2019/wu2019.cc:503-513 | Whenever the coded scan finds a count, a scan of the sorted copy finds one that is not larger. |
| Capacity.ScanCanOvershoot | Castalia/wu2019/wu2019.cc:503-513 | Concrete input on which the coded count is not a lower bound. |
| Capacity.ScanFailsIff | Castalia/wu2019/wu2019.cc:506-514 | The scan finds no count, and k_max stays uninitialised, exactly when no prefix exceeds w_total; for capacities that are not negative, exactly when their sum does not. |
| Capacity.ScanCanFail | Castalia/wu2019/wu2019.cc:506-514 | Concrete input without a count: nodes that can carry nothing. |
| Planner.GPRouting.NoCapacityIff | Castalia/wu2019/wu2019.cc:497-514 | At an energy level where no node can carry anything there is no count, and with capacities that are not negative exactly where all together do not exceed the total weight. |
| Capacity.SomeNodeAboveShare | Castalia/wu2019/wu2019.cc:505-534 | After a successful scan with w_total >= 0 some node has w_max > w_total / (4k), so the seeding loop has candidates. |
| Planner.GPRouting.ComputeCapacities | Castalia/wu2019/wu2019.cc:491-501 | w_total is the weight of all nodes and not negative, w_max the estimate at the energy level. |
| Planner.GPRouting.PlanCapacity | Castalia/wu2019/wu2019.cc:491-517 | Capacities, scan, and w_min: 4k heads with just w_min each carry just w_total; some node is above w_min whenever the scan succeeds. |
| Rounds.LeastCapacityCarries | Castalia/wu2019/wu2019.cc:514-516 | w_min times 4k is the total weight. |
| Planner.GPRouting.Seed | Castalia/wu2019/wu2019.cc:528-534 | The seeding loop ends with a non-empty A: distinct nodes, exactly the marked ones, each with w_max > w_min, and all such nodes if there are fewer than 8. |
| Planner.GPRouting.SeedAndGrow | Castalia/wu2019/wu2019.cc:527-535 | After clearing: seeds as above, with grown cells. |
| Planner.GPRouting.BalanceOnce | Castalia/wu2019/wu2019.cc:538-574 | One round goes from grown cells over grown cells after recruiting to grown cells after trimming; all three are recorded whole, with the real ball weights; it reports an overload exactly when some final ball exceeds its capacity, and gives up exactly when count > 50. |
| Planner.GPRouting.Balance | Castalia/wu2019/wu2019.cc:538-575 | The rounds chain from the vectors before to the vectors after; the loop ends with the first that leaves no overload or else, timed out, with the 52nd; on normal exit A has at most k_max heads. |
| Rounds.RoundsChain | Castalia/wu2019/wu2019.cc:538-575 | Each round of a run starts from all the vectors the one before left: heads, marks, lists, labels, cells and ball weights. |
| Rounds.TrimKeepsHeaviest | Castalia/wu2019/wu2019.cc:548-562 | In every round that trims, exactly k_max heads stay, and no dropped head has a heavier ball than a kept one, balls weighed over the cells grown after recruiting. |
| Rounds.NoTrimKeepsAll | Castalia/wu2019/wu2019.cc:548-562 | A round that does not trim keeps every head, one that trims keeps k_max of them; recruiting loses none. |
| Rounds.OverloadMeans | Castalia/wu2019/wu2019.cc:566-572 | The overload test succeeds exactly when some head cannot carry its own weight and twice that of its cell. |
| Rounds.BallsAreCells | Castalia/wu2019/wu2019.cc:426-451 | At every recorded step ballWeight is, head by head, its own weight and twice that of the rest of its cell. |
| Rounds.EveryRoundConserves | Castalia/wu2019/wu2019.cc:538-575 | At the start of every round, after recruiting and after regrowing, the balls add up to twice the non-sink weight less that of the non-sink heads. |
| Rounds.HeavyNodeTimesOut | Castalia/wu2019/wu2019.cc:538-575 | A node that exceeds its own capacity, and whose double weight exceeds every other, leaves an overload whatever the rounds do: the loop times out. |
| Rounds.HeavyNodeBreaksHead | Castalia/wu2019/wu2019.cc:538-575 | If such a node also exceeds every other head's capacity together with that head's own weight, some head's real load exceeds its capacity at the end. |
| Rounds.EqualWeightsTooHeavy | Castalia/wu2019/wu2019.cc:34-34 | Weights of 2000 and capacities 0, 1000, 3900, 3900: the total is 8000, the scan stops at 4, w_min is 500, and node 1 is too heavy for every head. |
| Planner.GPRouting.ConstructClusters | Castalia/wu2019/wu2019.cc:489-579 | After reset: capacities, total, scan count and w_min, seeds, a complete run of the balancing loop, and fields that hold its last state with the sink's head erased; undefined only when no prefix exceeds w_total. |
| Planner.GPRouting.ClusteredMeans | Castalia/wu2019/wu2019.cc:489-579 | Of these fields: A lists the marked nodes, each once; w_min times 4k is the total weight; at most 52 rounds; without a timeout at most 4k heads, none with a ball heavier than its w_max. |
| Planner.GPRouting.BuildClusters | Castalia/wu2019/wu2019.cc:526-575 | Seeds above w_min, grown, followed by a complete run of the loop down to the fields it leaves. |
| Rounds.LoadsFit | Castalia/wu2019/wu2019.cc:563-575 | On normal exit the load each head really carries, every node counted once, is within its capacity. |
| Rounds.ExitNeedsCapacity | Castalia/wu2019/wu2019.cc:563-575 | A normal exit takes heads whose capacities add up to the double-counted load. |
| Planner.GPRouting.SortedCHVector | Castalia/wu2019/wu2019.cc:633-657 | The insertion loop returns the first head followed by the stable sort of the others by angle. |
| Planner.GPRouting.InsertHead | Castalia/wu2019/wu2019.cc:642-654 | The scan inserts a head where the stable sort puts it. |
| Trajectories.ByAngleIsStableSort | Castalia/wu2019/wu2019.cc:641-655 | That sort is a permutation, ascending, and keeps heads at one angle in their order. |
| Trajectories.HeadsByAngleIsSorted | Castalia/wu2019/wu2019.cc:633-657 | The vector is a permutation of A, starts with A[0], and ascends by the angle from A[0] throughout. |
| Trajectories.WedgesLeaveRemainder | Castalia/wu2019/wu2019.cc:605-611 | The wedges are consecutive and disjoint and leave out exactly the last (size of A) mod numUAVs heads; all heads are covered if and only if numUAVs divides the size of A. |
| Trajectories.WedgesAscend | Castalia/wu2019/wu2019.cc:605-611 | No angle in an earlier wedge exceeds one in a later wedge. |
| Trajectories.VisitedIff | Castalia/wu2019/wu2019.cc:591-625 | A head is on some trajectory if and only if there are fewer heads than UAVs, or it is not among the last (size of A) mod numUAVs by angle, or it is the sink. |
| Trajectories.AllVisitedIff | Castalia/wu2019/wu2019.cc:591-625 | Every head is visited if and only if there are fewer heads than UAVs, or numUAVs divides their number, or the one head left over is the sink. |
| Trajectories.ThirdHeadUnvisited | Castalia/wu2019/wu2019.cc:605-619 | Concrete input: three heads and two UAVs, and no trajectory reaches the third head. |
| Trajectories.TourShape | Castalia/wu2019/wu2019.cc:591-625 | Every trajectory flown starts and ends at the sink; it visits its one head, or exactly the (size of A) / numUAVs heads that follow those of the trajectories before it. |
| Planner.GPRouting.CalculatePathLength | Castalia/wu2019/wu2019.cc:581-589 | The result is the sum of the leg lengths, 0 for an empty path. |
| Trajectories.ToursAddUp | Castalia/wu2019/wu2019.cc:581-589 | The lengths of two paths that meet at a node add up. |
| Trajectories.SingleHeadTour | Castalia/wu2019/wu2019.cc:581-589 | The length of the trajectory of one head is the way there and back. |
| Trajectories.ShortTours | Castalia/wu2019/wu2019.cc:581-589 | The length of one leg is its distance, that of a path without legs 0. |
| Planner.GPRouting.BuildTrajectories | Castalia/wu2019/wu2019.cc:591-625 | One head per UAV while there are fewer heads than UAVs; otherwise trajectory k is a round trip from the sink through the heads of wedge k. |
| Planner.GPRouting.BuildTrajectory | Castalia/wu2019/wu2019.cc:605-619 | A round trip from the sink through exactly the heads of the wedge. |
| Planner.GPRouting.Reset | Castalia/wu2019/wu2019.cc:190-201 | No heads, no marks, all vectors back to their start values. |
| Planner.GPRouting.TryLevel | Castalia/wu2019/wu2019.cc:144-161 | One level: clusters built at its capacities, tours of their heads, and a verdict that is positive exactly when a trajectory exceeds L_max; the saved configuration is untouched. |
| Planner.GPRouting.TooLong | Castalia/wu2019/wu2019.cc:154-161 | True exactly when the length of some trajectory exceeds L_max. |
| Planner.GPRouting.EnergyBounds | Castalia/wu2019/wu2019.cc:129-135 | Attained bounds of all energies, starting from DBL_MAX and 0. |
| Planner.GPRouting.StartBracket | Castalia/wu2019/wu2019.cc:129-138 | E_max is 0 or the largest energy; E_min is the least energy (or DBL_MAX) less the cost of sending and receiving one UAV's share; E_min <= E_max. |
| Planner.GPRouting.EnergyNotNegative | Castalia/Castalia/src/node/communication/routing/VirtualRouting.cc:451-457 | The transmission and reception energies subtracted from E_min are not negative. |
| Planner.GPRouting.EnergyPerByte | Castalia/Castalia/src/node/communication/routing/VirtualRouting.cc:451-457 | Receiving a byte takes 0.0000004, sending one that and 0.00000000008 times the squared distance; both are additive. |
| Planner.GPRouting.SharesMakeTotal | Castalia/wu2019/wu2019.cc:136-138 | The shares of all UAVs make the total weight. |
| Planner.GPRouting.MainAlg | Castalia/wu2019/wu2019.cc:127-172 | Every probe is a complete try of the middle of its bracket, feasible exactly when its trajectories are within L_max; the loop goes on while E_max - E_min > 0.1 and ends at most 0.1; the saved configuration is that of the last feasible try. It stops early exactly at a level where no prefix of the capacities exceeds the total. |
| Planner.GPRouting.TriedHasCapacity | Castalia/wu2019/wu2019.cc:503-517 | No level that was tried to the end is one without a count; with the early stop this makes it exact. |
| Planner.GPRouting.BisectOnce | Castalia/wu2019/wu2019.cc:143-170 | One round tries the middle, moves the end its trajectories decide, and saves heads, assignment and tours exactly when all trajectories are within L_max. |
| Planner.GPRouting.SavedIsBest | Castalia/wu2019/wu2019.cc:163-171 | Once some level was feasible, what is saved is the outcome of the largest feasible level tried, which is the final E_min. |
| Planner.GPRouting.NothingSaved | Castalia/wu2019/wu2019.cc:163-170 | While no level was feasible the saved configuration is the one from before. |
| Planner.GPRouting.TopFailed | Castalia/wu2019/wu2019.cc:163-166 | A final E_max other than the initial bound is a level whose trajectories exceeded L_max. |
| Planner.GPRouting.SavedIsGood | Castalia/wu2019/wu2019.cc:489-579 | A saved configuration has a head for every node, tours of these heads within L_max and, unless the balancing loop timed out at its level, no head with more weight assigned than estimateMaxWeight of its energy above that level. |
| Planner.GPRouting.TimeoutSavesOverload | Castalia/wu2019/wu2019.cc:543-547 | With tours within range and a node too heavy for every head at the last level, the loop timed out there, and the configuration that is saved gives some head more than it can carry. |
| Planner.GPRouting.TimeoutInput | Castalia/wu2019/wu2019.cc:34-34 | Concrete input with equal weights: the scan finds a count, and whatever the rounds do, what is saved overloads a head. |
| Bisection.GapHalves | Castalia/wu2019/wu2019.cc:143-171 | After n rounds E_max - E_min is the initial difference halved n times, whatever the outcomes. |
| Bisection.HalvedDoubles | Castalia/wu2019/wu2019.cc:143-171 | Halving undone by doubling. |
| Bisection.EightTakesSeven | Castalia/wu2019/wu2019.cc:143-171 | A difference of 8 is 0.125 after six rounds and 0.0625 after seven. |
| Bisection.RoundsAreExact | Castalia/wu2019/wu2019.cc:143-171 | The loop ends after exactly the least k >= 1 rounds with a difference of at most 0.1, and before the last round it was larger. |
| Bisection.BracketSeparates | Castalia/wu2019/wu2019.cc:163-170 | The final E_min is the largest feasible level tried or the initial bound, E_max the least infeasible one or the initial bound. |
| Allocator.GetIndex | Castalia/Castalia/ilconcert/iloallocator.h:158-183 | With 32- or 64-bit integers the index is 8-byte classes up to 64 bytes and 8 plus the bit length beyond; the table is read in range; the exception is thrown exactly when a class from 8 on is past the pools. |
| Allocator.ClassMeans | Castalia/Castalia/ilconcert/iloallocator.h:158-183 | Class i < 8 holds exactly 8i < s <= 8(i+1), class i >= 8 exactly 2^(i-2) < s <= 2^(i-1). |
| Allocator.WasteIsBounded | Castalia/Castalia/ilconcert/iloallocator.h:158-183 | The class bound covers the request and exceeds it by less than 8 bytes or by less than a factor of 2. |
| Allocator.ClassesAreMonotone | Castalia/Castalia/ilconcert/iloallocator.h:158-183 | Larger sizes never get a smaller class. |
| Allocator.NegativeIffNoSize | Castalia/Castalia/ilconcert/iloallocator.h:158-162 | The index is negative exactly for sizes below 1, and -1 exactly from -7 to 0. |
| Allocator.Memory.Alloc | Castalia/Castalia/ilconcert/iloallocator.h:196-202 | A positive size below the limit is served by the least pool whose class covers it, or by the exception exactly when it exceeds the largest class; from the limit on by the default allocator; size 0 below the limit gets the null pointer. |
| Allocator.Memory.Free | Castalia/Castalia/ilconcert/iloallocator.h:203-211 | A block of a size other than 0 goes back to where alloc takes that size from; a null pointer goes nowhere; a non-null block of size 0 below the limit is looked up at entry -1. |
| Allocator.Memory.SamePoolIff | Castalia/Castalia/ilconcert/iloallocator.h:196-211 | alloc and free of one size reach the same pool, exactly unless alloc gave the null pointer. |
| Allocator.Memory.AllocDefinedIff | Castalia/Castalia/ilconcert/iloallocator.h:196-202 | alloc reads the table of pools in range exactly for sizes that are not negative or not below the limit. |
| Allocator.Memory.FreeDefinedIff | Castalia/Castalia/ilconcert/iloallocator.h:203-211 | free does so exactly for a null pointer, a positive size, or one not below the limit; it reads entry -1 exactly for a non-null block with a size from -7 to 0 below the limit. |
| Allocator.Memory.PoolIsLeast | Castalia/Castalia/ilconcert/iloallocator.h:158-183 | The class getIndex gives a size is the least whose bound covers it, and the exception is thrown exactly beyond the largest bound. |
| BalanceIndex.CauchySchwarz | client/app/index.js:202-206 | n times the sum of squares is at least the squared sum, with equality exactly for equal counts. |
| BalanceIndex.SquaredSumAtMost | client/app/index.js:202-206 | The same with the sums written out. |
| BalanceIndex.IndexTimes | client/app/index.js:203 | BI times the count times the sum of squares is the squared sum. |
| BalanceIndex.SumsAdd | client/app/index.js:202-203 | Both sums over one count, and additive over lists. |
| BalanceIndex.PositiveCounts | client/app/index.js:204 | The filter keeps each positive count as often as it occurs. |
| BalanceIndex.IndexRange | client/app/index.js:202-206 | BI is NaN exactly when all counts are zero; otherwise 1/n <= BI <= 1, and BI = 1 exactly when all counts are equal. |
| BalanceIndex.DroppingZeros | client/app/index.js:204-206 | BI1 times its count equals BI times its count, and BI <= BI1 <= 1; both are NaN together. |
| Neighbors.ProcessNeighbors | client/app/Network.js:39-58 | Every node ends with exactly the ids of the other nodes whose squared distance is at most range squared, in order, and those nodes at the same positions. |
| Neighbors.Link | client/app/Network.js:47-54 | One pair: both lists are extended by the other node exactly when the two are within range. |
| Neighbors.NearIsExact | client/app/Network.js:46-55 | That list is strictly increasing and holds an id if and only if it is another node within range. |
| Neighbors.NearIsSymmetric | client/app/Network.js:48-53 | The neighbour relation is symmetric. |

## Left out

- `updateCentList`: it clears the outer vector before indexing it, so there is no defined
  behaviour to state; the field `centList`, which nothing else reads, goes with it.
- Simulator plumbing (timers, packets, MAC callbacks, traces, `sendAggregate`).
- Floating-point rounding: all arithmetic is over reals.
- The probability that `TZ_sample` ends: a round that draws nothing changes nothing and is
  repeated, so the model is the round that draws something.
- The heap inside `std::priority_queue` in the methods of the class, which take any order of
  pops, or least first by assumption. It is modelled for growBalls, in `QueueRuns`.
- Lines 519-524 of `constructClusters`: `A` is empty there after `reset`, so the loop body
  never runs. The sorted copy of line 505 is not built, since nothing reads it.
- The fields `maxBallWeight`, `minBallWeight`, `nloop`, `Eavg`, `rmSet`: written or declared
  but never read.
- `mainTSP`, `callVrptw`, `estimateMaxWeight`: parameters or arbitrary permutations.
- `UDG::init`: the adjacency it builds is an assumption on the graph, not a loop here.
- `main.cpp`, the packet classes, the other `ilconcert` headers and the rest of the client:
  operators not shown, generated accessors, declarations, user interface.
- `IloFixedSizeAllocatorI::allocate` and `deallocate`: pushing and popping a free list,
  whose refill code is not part of this model.
- Planner.GPRouting.GrowBalls: called with `A` and on a network where every non-sink node is reachable from
  a head, since the source indexes a list by -1 otherwise.
- Planner.GPRouting.TZSample: needs an unmarked node in W when W has at least s entries, since the
  source recurses for ever otherwise.
- Planner.GPRouting.MainAlg: stops where the source would read `k_max` uninitialised, and needs a positive
  number of UAVs, by which the source divides.
