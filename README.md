# Queueing planner and agent clusters of pedsim_ros, in Dafny

This project models two parts of the pedsim pedestrian simulator and
proves properties about them.

**The queueing waypoint planner** (`QueueingWaypointPlanner`) is the
per-agent controller that walks an agent to a waiting queue. It goes
through four phases: `Unknown`, `Approaching`, `Queued` and `MayPass`.

- While approaching, it heads for the queue's end.
- Within 2.0 of the end it enqueues the agent.
- It then stands 0.7 behind the agent ahead, or at the queue's anchor
  when it heads the queue.
- It follows the agent ahead, ignoring a new slot that lies less than
  0.4 from its current waypoint.
- It stops when the queue lets its agent pass.

It owns at most one waypoint and listens to three signals: the queue's
pass permission, the queue's end moving, and the followed agent moving.

**An agent cluster** (`AgentCluster`) is a spawn area. The model covers:

- its id, drawn from a counter shared by all clusters;
- its plain attributes: position, count, agent type, spread, and the
  group-creation flag;
- its waypoint list, to which waiting queues are added as waypoints.

## Layout

- `geometry.dfy`: the plane vector and squared distances. The simulator
  compares lengths against radii. The model compares squared lengths
  against squared radii. `SquaresOrderedLe` and `SquaresOrderedLt` show
  that the two comparisons agree.
- `collaborators.dfy`: the agent and the waiting queue, reduced to what
  the planner uses from them.
- `queueing_planner.dfy`: the target geometry as pure functions, and
  specification functions over a snapshot of the planner's fields
  (`AfterReset`, `AfterBinding`, `AfterMayPass`, ...). It also holds the
  class `QueueingWaypointPlanner`. Each method's contract ties the new
  state to those functions, or to the two-state predicates
  `EnteredApproaching`, `EnteredQueueing` and `HandledQueueEndMoved`.
- `agent_cluster.dfy`: the pure `RemoveAll` function with its lemmas, the
  id counter, and the class `AgentCluster`.

## Modelling choices

- **Signal connections.** Connections are recorded explicitly:
  - `passSubscribed` and `endMovedSubscribed` track the two queue signals
    of the bound queue;
  - `followSubscriptions` is the set of agents whose position signal is
    connected.

  The `Deliver...` methods model signal delivery: they call a handler
  only while the matching connection is recorded. So "a stale event has
  no effect" is a statement about those methods. The `On...` handlers
  themselves are the slots, callable directly as in the source.
- **Collaborators as parameters.** The queue's end moves, and agents
  move, between planner calls; the model takes these as given state.
  `WaitingQueue.Enqueue` appends and answers the previous last agent. It
  does not move the queue's end or emit events.
- **Waypoints by position.** The waypoint is its position
  (`Option<Vec>`). Replacing the waypoint object and moving it in place
  both become an assignment of `currentWaypoint`.
- **Null dereferences become preconditions.** The source dereferences
  some pointers without checking them, and those become `requires`:
  - `hasReachedQueueEnd` dereferences the agent when a queue is bound;
  - `onFollowedAgentLeftQueue` dereferences the current waypoint.
- **The id counter.** The function-local static `lastID` becomes an
  explicit `ClusterIdCounter` object handed to the cluster constructor.
  Its ghost set `issued` records every id given out.

Behaviour of the code worth knowing:

- **No waypoint right after binding.** After `setWaitingQueue(q)` the
  planner is `Approaching`, but there is no waypoint until the first
  `getCurrentWaypoint` call. So an approaching planner may have no
  waypoint, and the model's `Valid()` invariant allows that.
- **Completion checks change nothing.** `hasCompletedWaypoint` is a pure
  query. It does not itself enqueue the agent. Enqueueing happens in
  `getCurrentWaypoint`.
- **`MayPass` is left again.** In `MayPass`, `getCurrentWaypoint` finds
  the waypoint completed and derives a new one. The agent goes back to
  `Approaching`, or is enqueued a second time. `GetCurrentWaypoint`'s
  contract says this.
- **A followed agent that leaves stays followed.** When the followed
  agent leaves, the planner disconnects from it and walks to the anchor.
  It keeps it as `followedAgent` (`MayPassOutcomes`).
- **The approaching waypoint is the raw end.** Approaching mode sets the
  waypoint to the queue's end without the private-space offset
  (`EnteredApproaching`). Only later end moves subtract the offset, and
  only for a non-empty queue.
- **Stale connections after re-deriving.** Teardown disconnects only the
  current `followedAgent`. After a re-derivation from `MayPass`, the
  planner may still be connected to the agent it followed earlier.
  `followSubscriptions` is a set for this reason. `ResetDisconnectsAll`
  states that teardown removes exactly the followed agent's connection,
  and that it leaves no connection only when no other was left over.

## Model

| member | source | states |
|---|---|---|
| Geometry.Norm2 | pedsim_simulator/src/waypointplanner/queueingplanner.cpp:36-37 | a squared length is never negative |
| Geometry.Dist2 | pedsim_simulator/src/waypointplanner/queueingplanner.cpp:166-169 | a squared distance is never negative, and is zero from a point to itself |
| Geometry.Dist2Translate | pedsim_simulator/src/waypointplanner/queueingplanner.cpp:30-37 | subtracting the same private-space offset from two points keeps their distance, so the hysteresis test on the slots is a test on the followed agent's move |
| Geometry.Dist2OfDisplacement | pedsim_simulator/src/waypointplanner/queueingplanner.cpp:223-227 | a point moved back by an offset lies at exactly the offset's length from where it was |
| Geometry.SquaresOrderedLe | pedsim_simulator/src/waypointplanner/queueingplanner.cpp:169 | for non-negative numbers, `len <= radius` exactly when `len² <= radius²` |
| Geometry.SquaresOrderedLt | pedsim_simulator/src/waypointplanner/queueingplanner.cpp:37 | for non-negative numbers, `len < min` exactly when `len² < min²` |
| Collaborators.Agent.DisableForce | pedsim_simulator/src/waypointplanner/queueingplanner.cpp:213-216 | switching a force off adds it to the agent's disabled set and leaves its position alone |
| Collaborators.WaitingQueue.Last | pedsim_simulator/src/waypointplanner/queueingplanner.cpp:199-200 | the agent a newcomer would follow is absent exactly when the queue is empty, and is otherwise a queued agent |
| Collaborators.WaitingQueue.Enqueue | pedsim_simulator/src/waypointplanner/queueingplanner.cpp:199 | enqueueing appends the agent and answers the agent that was last, keeping the anchor, the offset and so the offset's length 0.7 |
| Queueing.ArrivalByLength | pedsim_simulator/src/waypointplanner/queueingplanner.cpp:159-173 | the squared arrival test holds exactly when the agent's distance to the queue's end is at most 2.0 |
| Queueing.MinorUpdateByLength | pedsim_simulator/src/waypointplanner/queueingplanner.cpp:35-38 | the squared hysteresis test holds exactly when the candidate is less than 0.4 from the current waypoint |
| Queueing.WithPrivateSpace | pedsim_simulator/src/waypointplanner/queueingplanner.cpp:223-227 | the slot behind a point gives the point back when the offset is added, and lies the offset's length away from it |
| Queueing.PrivateSpaceBehind | pedsim_simulator/src/waypointplanner/queueingplanner.cpp:223-227 | with a queue's offset of length 0.7, the slot behind a point lies exactly 0.7 from it |
| Queueing.ApproachTarget | pedsim_simulator/src/waypointplanner/queueingplanner.cpp:88-92 | on an end move, the new target is the end itself for an empty queue, and otherwise the slot the offset behind it |
| Queueing.FollowTarget | pedsim_simulator/src/waypointplanner/queueingplanner.cpp:30-40 | following a move either keeps the waypoint or moves it exactly to the slot behind the followed agent |
| Queueing.FollowTargetNearSlot | pedsim_simulator/src/waypointplanner/queueingplanner.cpp:30-40 | after a move report, the waypoint is always within 0.4 of the slot behind the followed agent |
| Queueing.FollowTargetIdempotent | pedsim_simulator/src/waypointplanner/queueingplanner.cpp:30-40 | the same report twice has the effect of one report |
| Queueing.SmallFollowedMoveIgnored | pedsim_simulator/src/waypointplanner/queueingplanner.cpp:35-38 | standing behind the agent ahead, a move of that agent shorter than 0.4 leaves the waypoint where it is |
| Queueing.LargeFollowedMoveTracked | pedsim_simulator/src/waypointplanner/queueingplanner.cpp:35-40 | a move of 0.4 or more takes the waypoint to the slot behind the new position |
| Queueing.ResetDisconnectsAll | pedsim_simulator/src/waypointplanner/queueingplanner.cpp:96-114 | teardown gives phase Unknown, no waypoint, no followed agent and no queue connection for every state; it removes exactly the followed agent's connection; no agent connection is left only when no other agent was connected |
| Queueing.BindingConnectsOnlyNewQueue | pedsim_simulator/src/waypointplanner/queueingplanner.cpp:139-153 | binding to a queue leaves exactly that queue's two signals connected, phase Approaching (Unknown for no queue), no waypoint and no followed agent for every state; it removes exactly the old followed agent's connection, so a stale connection survives it |
| Queueing.MayPassOutcomes | pedsim_simulator/src/waypointplanner/queueingplanner.cpp:43-72 | permission for the own agent gives MayPass and drops both queue signals, keeping the waypoint; permission for the followed agent moves the waypoint to the anchor and disconnects that agent but keeps it as followed; any other id changes nothing |
| Queueing.QueueingWaypointPlanner.constructor | pedsim_simulator/src/waypointplanner/queueingplanner.cpp:14-21 | a new planner has no agent, no queue, no waypoint, no followed agent, phase Unknown and no connection |
| Queueing.QueueingWaypointPlanner.SetAgent | pedsim_simulator/src/waypointplanner/queueingplanner.cpp:120-123 | binding an agent always succeeds and changes nothing else |
| Queueing.QueueingWaypointPlanner.Reset | pedsim_simulator/src/waypointplanner/queueingplanner.cpp:96-114 | teardown leaves the state given by `AfterReset`, keeping the invariant |
| Queueing.QueueingWaypointPlanner.SetDestination | pedsim_simulator/src/waypointplanner/queueingplanner.cpp:125-137 | a destination that is not a waiting queue changes nothing; a queue is bound as by `SetWaitingQueue` |
| Queueing.QueueingWaypointPlanner.SetWaitingQueue | pedsim_simulator/src/waypointplanner/queueingplanner.cpp:139-153 | rebinding is teardown followed by approaching the new queue and connecting to its two signals (`AfterBinding`); the destination is incomplete exactly when a queue was bound |
| Queueing.QueueingWaypointPlanner.ActivateApproachingMode | pedsim_simulator/src/waypointplanner/queueingplanner.cpp:175-188 | the phase becomes Approaching and the waypoint the queue's raw end; nothing else changes |
| Queueing.QueueingWaypointPlanner.ActivateQueueingMode | pedsim_simulator/src/waypointplanner/queueingplanner.cpp:190-221 | the agent is appended to the queue and follows the agent that was last; the queue's anchor and offset and that agent's position are kept; the waypoint is the slot behind that agent, exactly 0.7 from it for a valid queue, or the anchor for the head; the followed agent's moves get connected; the four forces are switched off |
| Queueing.QueueingWaypointPlanner.GetNextWaypoint | pedsim_simulator/src/waypointplanner/queueingplanner.cpp:240-258 | without agent or queue it answers none and changes nothing; otherwise it enters queueing mode at the queue's end and approaching mode elsewhere |
| Queueing.QueueingWaypointPlanner.GetCurrentWaypoint | pedsim_simulator/src/waypointplanner/queueingplanner.cpp:233-238 | answers the current waypoint, re-deriving it only when completed; a queued agent keeps its waypoint and is not enqueued twice; an approaching agent within 2.0 of the end is queued on this call |
| Queueing.QueueingWaypointPlanner.OnFollowedAgentPositionChanged | pedsim_simulator/src/waypointplanner/queueingplanner.cpp:23-41 | without a waypoint nothing changes; otherwise the waypoint becomes `FollowTarget` of the report and nothing else changes |
| Queueing.QueueingWaypointPlanner.OnAgentMayPassQueue | pedsim_simulator/src/waypointplanner/queueingplanner.cpp:43-60 | the new state is `AfterMayPass` for the bound queue's anchor; without a queue only the own agent's permission changes anything, setting MayPass; after the own agent's permission the destination is complete |
| Queueing.QueueingWaypointPlanner.OnFollowedAgentLeftQueue | pedsim_simulator/src/waypointplanner/queueingplanner.cpp:62-72 | the followed agent is disconnected but kept, and the waypoint moves to the queue's anchor |
| Queueing.QueueingWaypointPlanner.OnQueueEndPositionChanged | pedsim_simulator/src/waypointplanner/queueingplanner.cpp:74-94 | only an approaching agent reacts: it joins the queue when at the end; otherwise it retargets an existing waypoint to `ApproachTarget` of the new end |
| Queueing.QueueingWaypointPlanner.DeliverAgentMayPass | pedsim_simulator/src/waypointplanner/queueingplanner.cpp:148-149 | a pass permission takes effect only from the bound queue while connected, and then completes the destination for the own agent; otherwise the planner is unchanged |
| Queueing.QueueingWaypointPlanner.DeliverQueueEndMoved | pedsim_simulator/src/waypointplanner/queueingplanner.cpp:150-151 | an end move takes effect only from the bound queue while connected, and never once the agent may pass |
| Queueing.QueueingWaypointPlanner.DeliverPositionChanged | pedsim_simulator/src/waypointplanner/queueingplanner.cpp:205-206 | an agent's move takes effect only while that agent is connected and a waypoint exists |
| AgentClusters.RemoveAll | pedsim_simulator/src/element/agentcluster.cpp:96 | the result does not contain the removed waypoint and contains every other entry of the list; its length drops by the number of occurrences removed |
| AgentClusters.RemoveAllAppend | pedsim_simulator/src/element/agentcluster.cpp:94-103 | removal from a concatenation is the concatenation of the removals, so the kept entries stay in order |
| AgentClusters.RemoveAllMultiset | pedsim_simulator/src/element/agentcluster.cpp:94-103 | removal drops all occurrences of the waypoint and keeps every other entry with its multiplicity |
| AgentClusters.RemoveAllAbsent | pedsim_simulator/src/element/agentcluster.cpp:94-103 | removing an absent waypoint leaves the list unchanged |
| AgentClusters.RemoveAllIdempotent | pedsim_simulator/src/element/agentcluster.cpp:94-103 | removing twice is removing once |
| AgentClusters.RemoveAfterAdd | pedsim_simulator/src/element/agentcluster.cpp:89-103 | removing a waypoint right after adding it gives what removing it alone gives |
| AgentClusters.ClusterIdCounter.constructor | pedsim_simulator/src/element/agentcluster.cpp:20 | the counter starts at 0 with no id issued |
| AgentClusters.AgentCluster.constructor | pedsim_simulator/src/element/agentcluster.cpp:19-28 | a new cluster takes the next id, greater than every id issued before, and starts with its given position and count, no spread, type 0, group creation on and no waypoints |
| AgentClusters.AgentCluster.SetCount | pedsim_simulator/src/element/agentcluster.cpp:77-83 | the count read back is the one set; nothing else changes |
| AgentClusters.AgentCluster.AddWaypoint | pedsim_simulator/src/element/agentcluster.cpp:89-92 | the list becomes the old list followed by the waypoint; nothing else changes |
| AgentClusters.AgentCluster.RemoveWaypoint | pedsim_simulator/src/element/agentcluster.cpp:94-103 | answers true exactly when the waypoint was listed; afterwards it is not listed; the list is `RemoveAll` of the old one and is unchanged when the answer is false |
| AgentClusters.AgentCluster.AddWaitingQueue | pedsim_simulator/src/element/agentcluster.cpp:105-110 | a queue is appended to the same list as a waypoint |
| AgentClusters.AgentCluster.RemoveWaitingQueue | pedsim_simulator/src/element/agentcluster.cpp:112-120 | a queue is removed from the same list as a waypoint, with the same answer |
| AgentClusters.AgentCluster.SetPosition | pedsim_simulator/src/element/agentcluster.cpp:122-131 | the position read back is the one set; nothing else changes |
| AgentClusters.AgentCluster.SetPositionXY | pedsim_simulator/src/element/agentcluster.cpp:133-135 | the position read back is (px, py); nothing else changes |
| AgentClusters.AgentCluster.SetX | pedsim_simulator/src/element/agentcluster.cpp:137-142 | only the x coordinate changes |
| AgentClusters.AgentCluster.SetY | pedsim_simulator/src/element/agentcluster.cpp:144-149 | only the y coordinate changes |
| AgentClusters.AgentCluster.SetType | pedsim_simulator/src/element/agentcluster.cpp:151-160 | the type read back is the one set; nothing else changes |
| AgentClusters.AgentCluster.SetShallCreateGroups | pedsim_simulator/src/element/agentcluster.cpp:162-169 | the flag read back is the one set; nothing else changes |
| AgentClusters.AgentCluster.SetDistribution | pedsim_simulator/src/element/agentcluster.cpp:171-178 | the spread read back is (width, height) as set; nothing else changes |
| AgentClusters.AgentCluster.SetDistributionWidth | pedsim_simulator/src/element/agentcluster.cpp:180-182 | only the spread's width changes |
| AgentClusters.AgentCluster.SetDistributionHeight | pedsim_simulator/src/element/agentcluster.cpp:184-186 | only the spread's height changes |

The read-only queries `hasReachedQueueEnd`, `hasCompletedWaypoint` and
`hasCompletedDestination` (queueingplanner.cpp:159-173, 260-283) are the
predicates `HasReachedQueueEnd`, `HasCompletedWaypoint` and
`HasCompletedDestination`. The method contracts above are stated with
them. The cluster getters (agentcluster.cpp:73-87, 122-124, 151-153,
162-165, 171-173) are the functions `GetId`, `GetCount`, `GetWaypoints`,
`GetPosition`, `GetType`, `GetShallCreateGroups` and `GetDistribution`.
The setters' contracts read values back through them.

## Left out

- Qt signal and slot plumbing: connections are recorded as flags and a
  set, and delivery is an explicit method. Qt also allows a signal to be
  connected twice, so two connections to one agent count twice there;
  a set cannot express that. For the follow connection this is harmless:
  a report delivered twice has the effect of one (`FollowTargetIdempotent`).
- Logging, `name`, `toString` and `createWaypointName`: these only
  format text.
- The polar conversion and square root are floating point, so
  coordinates are reals and lengths are compared squared.
  - The private-space offset is supplied by the queue. Its length 0.7 is
    the queue's `Valid()` predicate, which `Enqueue` preserves;
    `PrivateSpaceBehind` and `ActivateQueueingMode` turn it into the
    0.7 distance of the slot.
  - Floating-point rounding is not modelled.
- Ped::Tvector's z coordinate: every position here is planar.
- Waypoint names and heap identity: the waypoint is its position. A
  caller that kept the pointer returned by `getCurrentWaypoint` would see
  later in-place moves. Replacing the waypoint would leave that caller
  with a deleted object. Neither aliasing effect is captured.
- The waiting queue's own code (`waitingqueue.cpp`) is not part of this
  model.
  - Collaborators.WaitingQueue.Enqueue: the queue's end after enqueueing
    is left unspecified.
  - Enqueueing emits no signals here, so the re-entrant end-moved signal
    during queueing mode is not modelled. It would find the phase already
    `Queued` and be ignored.
- AgentClusters.AgentCluster.constructor: the 32-bit overflow of the
  static `lastID` counter is not modelled. The model's counter is
  unbounded, so ids keep increasing.
- `AgentCluster::dissolve` (agentcluster.cpp:39-71) is left out. It
  draws random positions, allocates agents and adds them to the global
  scene.
- The cluster's graphical representation, `getVisiblePosition` and
  `setVisiblePosition`: these are graphics only.
- The `positionChanged` and `typeChanged` signals emitted by the cluster
  setters have no state of their own in the cluster.
- Waypoints in a cluster's list are identities (`WaypointId`). A null
  waypoint pointer, or a queue whose cast yields null, is not
  represented.
