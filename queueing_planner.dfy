/**
 * The queueing waypoint planner: the per-agent controller that walks an
 * agent to the end of a waiting queue, keeps it in line behind the agent
 * ahead, and lets it go once the queue grants it permission to pass.
 *
 * The planner is in one of four phases (Status). It owns at most one
 * waypoint (modelled by its position, an Option<Vec>), and it listens to
 * three kinds of events: the queue's pass permission, the queue's end
 * moving, and the followed agent moving. Which events reach it is recorded
 * in its subscriptions: two flags for the queue's two signals and the set
 * of agents whose moves it is connected to.
 */
module Queueing {
  import opened Geometry
  import opened Collaborators

  datatype Option<T> = None | Some(value: T)

  /** Within this distance of the queue's end the agent joins the queue. */
  const ArrivalRadius: real := 2.0
  /** Moves of the slot behind the followed agent shorter than this are ignored. */
  const MinUpdateDistance: real := 0.4

  /** The steering forces switched off while an agent stands in a queue. */
  const QueueingDisabledForces: set<string> := {"Social", "Random", "GroupCoherence", "GroupGaze"}

  datatype Status = Unknown | Approaching | Queued | MayPass

  /**
   * A destination handed to the planner: either a waiting queue or anything
   * else (another kind of waypoint, or none at all).
   */
  datatype Destination = OtherWaypoint | QueueDestination(queue: WaitingQueue)

  function AgentSet(a: Agent?): set<Agent> {
    if a == null then {} else {a}
  }

  // ---------------------------------------------------------------------
  // Target geometry

  /** The agent is close enough to the queue's end to join it. */
  predicate WithinArrivalRadius(queueEnd: Vec, position: Vec) {
    Dist2(queueEnd, position) <= ArrivalRadius * ArrivalRadius
  }

  /**
   * The squared test agrees with the simulator's test on the length:
   * for `len` the distance between the two points, the agent has arrived
   * exactly when `len <= 2.0`.
   */
  lemma ArrivalByLength(queueEnd: Vec, position: Vec, len: real)
    requires len >= 0.0 && len * len == Dist2(queueEnd, position)
    ensures WithinArrivalRadius(queueEnd, position) <==> len <= ArrivalRadius
  {
    SquaresOrderedLe(len, ArrivalRadius);
  }

  /**
   * The point the private-space offset behind `p`. Adding the offset back
   * gives `p`, and the point lies exactly |offset| away from `p`.
   */
  function WithPrivateSpace(p: Vec, offset: Vec): (r: Vec)
    ensures Plus(r, offset) == p
    ensures Dist2(r, p) == Norm2(offset)
  {
    Dist2OfDisplacement(p, offset);
    Minus(p, offset)
  }

  /** Behind a valid queue's offset, the slot lies exactly 0.7 from the point. */
  lemma PrivateSpaceBehind(q: WaitingQueue, p: Vec)
    requires q.Valid()
    ensures Dist2(WithPrivateSpace(p, q.privateSpace), p) == PrivateSpaceDistance * PrivateSpaceDistance
  {
  }

  /**
   * Where an approaching agent heads when the queue's end moves to
   * `queueEnd`: the end itself for an empty queue, otherwise the point the
   * private space behind it.
   */
  function ApproachTarget(queueEnd: Vec, offset: Vec, queueIsEmpty: bool): (r: Vec)
    ensures queueIsEmpty ==> r == queueEnd
    ensures !queueIsEmpty ==> Plus(r, offset) == queueEnd && Dist2(r, queueEnd) == Norm2(offset)
  {
    if queueIsEmpty then queueEnd else WithPrivateSpace(queueEnd, offset)
  }

  /** A change of the waypoint this small is not worth making. */
  predicate IsMinorUpdate(candidate: Vec, current: Vec) {
    Dist2(candidate, current) < MinUpdateDistance * MinUpdateDistance
  }

  /**
   * The squared test agrees with the simulator's test on the length:
   * for `len` the distance between candidate and current waypoint, the
   * update is dropped exactly when `len < 0.4`.
   */
  lemma MinorUpdateByLength(candidate: Vec, current: Vec, len: real)
    requires len >= 0.0 && len * len == Dist2(candidate, current)
    ensures IsMinorUpdate(candidate, current) <==> len < MinUpdateDistance
  {
    SquaresOrderedLt(len, MinUpdateDistance);
  }

  /**
   * The waypoint of a queued agent after the agent ahead reports position
   * `followedPosition`: the slot the private space behind it, unless that
   * slot is within the hysteresis distance of the current waypoint, in
   * which case the waypoint stays where it is.
   */
  function FollowTarget(current: Vec, followedPosition: Vec, offset: Vec): (r: Vec)
    ensures r == current || r == WithPrivateSpace(followedPosition, offset)
  {
    var slot := WithPrivateSpace(followedPosition, offset);
    if IsMinorUpdate(slot, current) then current else slot
  }

  /** Whatever happens, the waypoint ends up near the slot behind the agent ahead. */
  lemma FollowTargetNearSlot(current: Vec, followedPosition: Vec, offset: Vec)
    ensures IsMinorUpdate(WithPrivateSpace(followedPosition, offset), FollowTarget(current, followedPosition, offset))
  {
    var slot := WithPrivateSpace(followedPosition, offset);
    if !IsMinorUpdate(slot, current) {
      assert FollowTarget(current, followedPosition, offset) == slot;
    }
  }

  /** The same report twice moves the waypoint no further than once. */
  lemma FollowTargetIdempotent(current: Vec, followedPosition: Vec, offset: Vec)
    ensures var once := FollowTarget(current, followedPosition, offset);
            FollowTarget(once, followedPosition, offset) == once
  {
    FollowTargetNearSlot(current, followedPosition, offset);
  }

  /**
   * Starting from the slot behind the agent ahead at `p`, a move of that
   * agent to `q` shorter than 0.4 leaves the waypoint where it is.
   */
  lemma SmallFollowedMoveIgnored(p: Vec, q: Vec, offset: Vec)
    requires Dist2(q, p) < MinUpdateDistance * MinUpdateDistance
    ensures FollowTarget(WithPrivateSpace(p, offset), q, offset) == WithPrivateSpace(p, offset)
  {
    Dist2Translate(q, p, offset);
  }

  /** ... and a move of 0.4 or more takes the waypoint to the new slot. */
  lemma LargeFollowedMoveTracked(p: Vec, q: Vec, offset: Vec)
    requires Dist2(q, p) >= MinUpdateDistance * MinUpdateDistance
    ensures FollowTarget(WithPrivateSpace(p, offset), q, offset) == WithPrivateSpace(q, offset)
  {
    Dist2Translate(q, p, offset);
  }

  // ---------------------------------------------------------------------
  // Planner state

  /** A snapshot of every field of the planner. */
  datatype PlannerFields = PlannerFields(
    agent: Agent?,
    waitingQueue: WaitingQueue?,
    currentWaypoint: Option<Vec>,
    followedAgent: Agent?,
    status: Status,
    passSubscribed: bool,
    endMovedSubscribed: bool,
    followSubscriptions: set<Agent>)

  /**
   * The planner after teardown: phase Unknown, no waypoint, no followed
   * agent, disconnected from the queue and from the followed agent. The
   * queue and the agent stay bound.
   */
  function AfterReset(f: PlannerFields): PlannerFields {
    f.(currentWaypoint := None, followedAgent := null, status := Unknown,
       passSubscribed := false, endMovedSubscribed := false,
       followSubscriptions := f.followSubscriptions - AgentSet(f.followedAgent))
  }

  /** The planner after teardown and binding to queue `q` (or to none). */
  function AfterBinding(f: PlannerFields, q: WaitingQueue?): PlannerFields {
    AfterReset(f).(waitingQueue := q,
                   status := if q != null then Approaching else Unknown,
                   passSubscribed := q != null, endMovedSubscribed := q != null)
  }

  /**
   * Teardown gives phase Unknown, no waypoint, no followed agent and no
   * queue connection, and disconnects exactly the followed agent. Only
   * when the planner was connected to no other agent is it connected to
   * nothing at all afterwards.
   */
  lemma ResetDisconnectsAll(f: PlannerFields)
    ensures var g := AfterReset(f);
            g.status == Unknown && g.currentWaypoint == None && g.followedAgent == null &&
            !g.passSubscribed && !g.endMovedSubscribed &&
            g.followSubscriptions == f.followSubscriptions - AgentSet(f.followedAgent) &&
            (f.followedAgent != null ==> f.followedAgent !in g.followSubscriptions) &&
            (f.followSubscriptions <= AgentSet(f.followedAgent) ==> g.followSubscriptions == {})
  {
  }

  /**
   * Rebinding connects to exactly the new queue's two signals, drops the
   * followed agent's connection, and leaves no waypoint; no agent
   * connection survives unless one was stale already.
   */
  lemma BindingConnectsOnlyNewQueue(f: PlannerFields, q: WaitingQueue?)
    ensures var g := AfterBinding(f, q);
            g.waitingQueue == q && g.currentWaypoint == None && g.followedAgent == null &&
            (g.passSubscribed <==> q != null) && (g.endMovedSubscribed <==> q != null) &&
            (g.status == Approaching <==> q != null) && (g.status == Unknown <==> q == null) &&
            g.followSubscriptions == f.followSubscriptions - AgentSet(f.followedAgent) &&
            (f.followedAgent != null ==> f.followedAgent !in g.followSubscriptions) &&
            (f.followSubscriptions <= AgentSet(f.followedAgent) ==> g.followSubscriptions == {})
  {
  }

  /** The planner after the followed agent was let out of the queue. */
  function AfterFollowedLeft(f: PlannerFields, queueAnchor: Vec): PlannerFields {
    f.(followSubscriptions := f.followSubscriptions - AgentSet(f.followedAgent),
       currentWaypoint := Some(queueAnchor))
  }

  /** The planner after the queue let agent `id` pass. */
  function AfterMayPass(f: PlannerFields, id: int, queueAnchor: Vec): PlannerFields {
    if f.agent != null && id == f.agent.id then
      f.(status := MayPass, passSubscribed := false, endMovedSubscribed := false)
    else if f.followedAgent != null && id == f.followedAgent.id then
      AfterFollowedLeft(f, queueAnchor)
    else
      f
  }

  /**
   * Pass permission for the planner's own agent ends its queueing: the
   * phase is MayPass, both queue signals are disconnected, and the rest is
   * kept. Permission for the followed agent sends this one to the queue's
   * anchor and disconnects from the leaver, yet keeps it as the followed
   * agent. Permission for anybody else changes nothing.
   */
  lemma MayPassOutcomes(f: PlannerFields, id: int, queueAnchor: Vec)
    ensures var g := AfterMayPass(f, id, queueAnchor);
            (f.agent != null && id == f.agent.id ==>
               g.status == MayPass && !g.passSubscribed && !g.endMovedSubscribed &&
               g.currentWaypoint == f.currentWaypoint && g.followSubscriptions == f.followSubscriptions) &&
            (!(f.agent != null && id == f.agent.id) && f.followedAgent != null && id == f.followedAgent.id ==>
               g.status == f.status && g.currentWaypoint == Some(queueAnchor) &&
               g.followedAgent == f.followedAgent && f.followedAgent !in g.followSubscriptions) &&
            (!(f.agent != null && id == f.agent.id) && !(f.followedAgent != null && id == f.followedAgent.id) ==>
               g == f)
  {
  }

  /** The planner after the followed agent reported position `p`. */
  function AfterFollowedMoved(f: PlannerFields, p: Vec, offset: Vec): PlannerFields {
    match f.currentWaypoint
    case None => f
    case Some(w) => f.(currentWaypoint := Some(FollowTarget(w, p, offset)))
  }

  class QueueingWaypointPlanner {
    var agent: Agent?
    var waitingQueue: WaitingQueue?
    var currentWaypoint: Option<Vec>
    var followedAgent: Agent?
    var status: Status
    /** Connected to the queue's pass-permission signal. */
    var passSubscribed: bool
    /** Connected to the queue's end-moved signal. */
    var endMovedSubscribed: bool
    /** The agents whose position-changed signal is connected. */
    var followSubscriptions: set<Agent>

    function Fields(): PlannerFields
      reads this
    {
      PlannerFields(agent, waitingQueue, currentWaypoint, followedAgent, status,
                    passSubscribed, endMovedSubscribed, followSubscriptions)
    }

    /** The agent and the queue the planner may act on. */
    ghost function Peers(): set<object>
      reads this
    {
      (if agent == null then {} else {agent}) + (if waitingQueue == null then {} else {waitingQueue})
    }

    /**
     * Without a queue there is no waypoint, no followed agent, no
     * connection to a queue and no approaching or queued phase; the two
     * queue signals are connected together; and a queue signal is only
     * connected while approaching or queued.
     */
    ghost predicate Valid()
      reads this
    {
      (waitingQueue == null ==>
         currentWaypoint == None && followedAgent == null && !passSubscribed &&
         status != Approaching && status != Queued) &&
      passSubscribed == endMovedSubscribed &&
      (passSubscribed ==> status == Approaching || status == Queued)
    }

    constructor ()
      ensures Valid()
      ensures Fields() == PlannerFields(null, null, None, null, Unknown, false, false, {})
    {
      agent := null;
      waitingQueue := null;
      currentWaypoint := None;
      followedAgent := null;
      status := Unknown;
      passSubscribed := false;
      endMovedSubscribed := false;
      followSubscriptions := {};
    }

    method SetAgent(agentIn: Agent?) returns (ok: bool)
      requires Valid()
      modifies this
      ensures Valid()
      ensures ok
      ensures Fields() == old(Fields()).(agent := agentIn)
    {
      agent := agentIn;
      ok := true;
    }

    /** Disconnects from the followed agent and the queue and forgets the phase. */
    method Reset()
      requires Valid()
      modifies this
      ensures Valid()
      ensures Fields() == AfterReset(old(Fields()))
    {
      if followedAgent != null {
        followSubscriptions := followSubscriptions - {followedAgent};
      }
      if waitingQueue != null {
        passSubscribed := false;
        endMovedSubscribed := false;
      }
      status := Unknown;
      currentWaypoint := None;
      followedAgent := null;
    }

    /** Accepts only a waiting queue as destination; anything else is ignored. */
    method SetDestination(destination: Destination)
      requires Valid()
      modifies this
      ensures Valid()
      ensures destination.OtherWaypoint? ==> unchanged(this)
      ensures destination.QueueDestination? ==> Fields() == AfterBinding(old(Fields()), destination.queue)
    {
      if destination.OtherWaypoint? {
        return;
      }
      SetWaitingQueue(destination.queue);
    }

    /** Tears down the old queue, then approaches `queueIn` (if any). */
    method SetWaitingQueue(queueIn: WaitingQueue?)
      requires Valid()
      modifies this
      ensures Valid()
      ensures Fields() == AfterBinding(old(Fields()), queueIn)
      ensures queueIn != null <==> !HasCompletedDestination()
    {
      Reset();
      waitingQueue := queueIn;
      if waitingQueue != null {
        status := Approaching;
        passSubscribed := true;
        endMovedSubscribed := true;
      }
    }

    /** The agent stands within the arrival radius of the bound queue's end. */
    predicate HasReachedQueueEnd()
      reads this, agent, waitingQueue
      requires waitingQueue != null ==> agent != null
    {
      waitingQueue != null && WithinArrivalRadius(waitingQueue.endPosition, agent.position)
    }

    /**
     * The current waypoint needs replacing: there is none, or the agent
     * has just reached the queue's end, or it may pass.
     */
    predicate HasCompletedWaypoint()
      reads this, agent, waitingQueue
      requires currentWaypoint.Some? && status == Approaching && waitingQueue != null ==> agent != null
    {
      currentWaypoint.None? ||
      (status == Approaching && HasReachedQueueEnd()) ||
      status == MayPass
    }

    /** The planner has nothing more to do: no queue, or permission to pass. */
    predicate HasCompletedDestination()
      reads this
    {
      waitingQueue == null || status == MayPass
    }

    /** The post-state of approaching mode: the waypoint is the queue's raw end. */
    twostate predicate EnteredApproaching()
      reads this, waitingQueue
    {
      old(waitingQueue) != null &&
      Fields() == old(Fields()).(status := Approaching,
                                 currentWaypoint := Some(old(waitingQueue.endPosition)))
    }

    /**
     * The post-state of queueing mode: the agent is appended to the queue,
     * follows the agent that was last in it, stands the private space
     * behind that agent (or at the anchor when it heads the queue), listens
     * to that agent's moves, and has the four group and social forces off.
     */
    twostate predicate EnteredQueueing()
      reads this, agent, waitingQueue, followedAgent
    {
      old(agent) != null && old(waitingQueue) != null &&
      agent == old(agent) && waitingQueue == old(waitingQueue) &&
      status == Queued &&
      followedAgent == old(waitingQueue.Last()) &&
      waitingQueue.queued == old(waitingQueue.queued) + [agent] &&
      waitingQueue.anchor == old(waitingQueue.anchor) &&
      waitingQueue.privateSpace == old(waitingQueue.privateSpace) &&
      (var ahead := followedAgent; ahead != null ==> ahead.position == old(ahead.position)) &&
      currentWaypoint == Some(if followedAgent != null
                              then WithPrivateSpace(followedAgent.position, waitingQueue.privateSpace)
                              else waitingQueue.anchor) &&
      followSubscriptions == old(followSubscriptions) + AgentSet(followedAgent) &&
      passSubscribed == old(passSubscribed) && endMovedSubscribed == old(endMovedSubscribed) &&
      agent.disabledForces == old(agent.disabledForces) + QueueingDisabledForces &&
      agent.position == old(agent.position)
    }

    method ActivateApproachingMode()
      requires Valid() && agent != null && waitingQueue != null
      modifies this
      ensures Valid()
      ensures EnteredApproaching()
    {
      status := Approaching;
      currentWaypoint := Some(waitingQueue.endPosition);
    }

    method ActivateQueueingMode()
      requires Valid() && agent != null && waitingQueue != null
      modifies this, agent, waitingQueue
      ensures Valid()
      ensures EnteredQueueing()
      ensures old(waitingQueue.Valid()) ==> waitingQueue.Valid()
      // with a valid queue the slot lies exactly the private space behind the agent ahead
      ensures old(waitingQueue.Valid()) && followedAgent != null ==>
                Dist2(currentWaypoint.value, followedAgent.position) == PrivateSpaceDistance * PrivateSpaceDistance
    {
      status := Queued;
      var ahead := waitingQueue.Enqueue(agent);
      followedAgent := ahead;
      var queueingPosition;
      if followedAgent != null {
        queueingPosition := WithPrivateSpace(followedAgent.position, waitingQueue.privateSpace);
        followSubscriptions := followSubscriptions + {followedAgent};
      } else {
        queueingPosition := waitingQueue.anchor;
      }
      agent.DisableForce("Social");
      agent.DisableForce("Random");
      agent.DisableForce("GroupCoherence");
      agent.DisableForce("GroupGaze");
      currentWaypoint := Some(queueingPosition);
    }

    /**
     * Derives a fresh waypoint from the phase: queueing once the agent is at
     * the queue's end, approaching before. Without agent or queue it answers
     * no waypoint and changes nothing.
     */
    method GetNextWaypoint() returns (w: Option<Vec>)
      requires Valid()
      modifies this, Peers()
      ensures Valid()
      ensures old(agent) == null || old(waitingQueue) == null ==>
                w == None && unchanged(this) && unchanged(old(Peers()))
      ensures old(agent) != null && old(waitingQueue) != null ==>
                w == currentWaypoint &&
                if old(HasReachedQueueEnd()) then EnteredQueueing()
                else EnteredApproaching() && unchanged(old(Peers()))
    {
      if agent == null {
        return None;
      }
      if waitingQueue == null {
        return None;
      }
      if HasReachedQueueEnd() {
        ActivateQueueingMode();
      } else {
        ActivateApproachingMode();
      }
      w := currentWaypoint;
    }

    /**
     * The waypoint the agent should walk to now, re-derived first when the
     * current one is completed.
     */
    method GetCurrentWaypoint() returns (w: Option<Vec>)
      requires Valid()
      requires currentWaypoint.Some? && status == Approaching && waitingQueue != null ==> agent != null
      modifies this, Peers()
      ensures Valid()
      ensures w == currentWaypoint
      ensures !old(HasCompletedWaypoint()) ==> unchanged(this) && unchanged(old(Peers()))
      ensures old(HasCompletedWaypoint()) && (old(agent) == null || old(waitingQueue) == null) ==>
                Fields() == old(Fields()).(currentWaypoint := None) && unchanged(old(Peers()))
      ensures old(HasCompletedWaypoint()) && old(agent) != null && old(waitingQueue) != null ==>
                if old(HasReachedQueueEnd()) then EnteredQueueing()
                else EnteredApproaching() && unchanged(old(Peers()))
      // a queued agent keeps its waypoint and is not enqueued a second time
      ensures old(status) == Queued && old(currentWaypoint).Some? ==>
                w == old(currentWaypoint) && unchanged(this) && unchanged(old(Peers()))
      // an approaching agent at the queue's end joins the queue on this call
      ensures old(status) == Approaching && old(agent) != null && old(HasReachedQueueEnd()) ==>
                status == Queued && EnteredQueueing()
    {
      if HasCompletedWaypoint() {
        currentWaypoint := GetNextWaypoint();
      }
      w := currentWaypoint;
    }

    /** The agent ahead moved to (x, y): follow it, ignoring small moves. */
    method OnFollowedAgentPositionChanged(x: real, y: real)
      requires Valid()
      modifies this
      ensures Valid()
      ensures old(currentWaypoint).None? ==> unchanged(this)
      ensures old(currentWaypoint).Some? ==>
                Fields() == AfterFollowedMoved(old(Fields()), Vec(x, y), old(waitingQueue.privateSpace))
    {
      if currentWaypoint.None? {
        return;
      }
      var followedPosition := WithPrivateSpace(Vec(x, y), waitingQueue.privateSpace);
      if IsMinorUpdate(followedPosition, currentWaypoint.value) {
        return;
      }
      currentWaypoint := Some(followedPosition);
    }

    /** The queue lets agent `id` pass. */
    method OnAgentMayPassQueue(id: int)
      requires Valid()
      requires !(agent != null && id == agent.id) && followedAgent != null && id == followedAgent.id ==>
                 currentWaypoint.Some?
      modifies this
      ensures Valid()
      ensures old(waitingQueue) != null ==> Fields() == AfterMayPass(old(Fields()), id, old(waitingQueue).anchor)
      ensures old(waitingQueue) == null ==>
                Fields() == old(Fields()).(status := if old(agent) != null && id == old(agent).id then MayPass else old(status))
      ensures old(agent) != null && id == old(agent).id ==> HasCompletedDestination()
    {
      if agent != null && id == agent.id {
        status := MayPass;
        passSubscribed := false;
        endMovedSubscribed := false;
      } else if followedAgent != null && id == followedAgent.id {
        OnFollowedAgentLeftQueue();
      }
    }

    /** The agent ahead left: stop following its moves and walk to the anchor. */
    method OnFollowedAgentLeftQueue()
      requires Valid() && currentWaypoint.Some?
      modifies this
      ensures Valid()
      ensures Fields() == AfterFollowedLeft(old(Fields()), old(waitingQueue.anchor))
    {
      if followedAgent != null {
        followSubscriptions := followSubscriptions - {followedAgent};
      }
      currentWaypoint := Some(waitingQueue.anchor);
    }

    /**
     * The post-state of handling the queue's end moving to (x, y). Only an
     * approaching agent reacts: it joins the queue when at the end, and
     * otherwise retargets its waypoint (if it has one) to the new end, minus
     * the private space unless the queue is empty.
     */
    twostate predicate HandledQueueEndMoved(x: real, y: real)
      requires old(Valid()) && old(status == Approaching ==> agent != null)
      reads this, agent, waitingQueue, followedAgent
    {
      agent == old(agent) && waitingQueue == old(waitingQueue) &&
      if old(status) != Approaching then
        unchanged(this) && unchanged(Peers())
      else if old(HasReachedQueueEnd()) then
        EnteredQueueing()
      else
        unchanged(Peers()) &&
        Fields() == old(Fields()).(currentWaypoint :=
          if old(currentWaypoint).None? then None
          else Some(ApproachTarget(Vec(x, y), old(waitingQueue.privateSpace), old(waitingQueue.IsEmpty()))))
    }

    method OnQueueEndPositionChanged(x: real, y: real)
      requires Valid()
      requires status == Approaching ==> agent != null
      modifies this, Peers()
      ensures Valid()
      ensures HandledQueueEndMoved(x, y)
    {
      if status != Approaching {
        return;
      }
      if HasReachedQueueEnd() {
        ActivateQueueingMode();
      } else {
        if currentWaypoint.None? {
          return;
        }
        var newDestination := ApproachTarget(Vec(x, y), waitingQueue.privateSpace, waitingQueue.IsEmpty());
        currentWaypoint := Some(newDestination);
      }
    }

    // -------------------------------------------------------------------
    // Event delivery: a signal reaches a handler only while connected.

    /** Queue `source` grants agent `id` permission to pass. */
    method DeliverAgentMayPass(source: WaitingQueue, id: int)
      requires Valid()
      requires source == waitingQueue && passSubscribed &&
               !(agent != null && id == agent.id) && followedAgent != null && id == followedAgent.id ==>
                 currentWaypoint.Some?
      modifies this
      ensures Valid()
      ensures !(source == old(waitingQueue) && old(passSubscribed)) ==> unchanged(this)
      ensures source == old(waitingQueue) && old(passSubscribed) ==>
                Fields() == AfterMayPass(old(Fields()), id, source.anchor)
      ensures source == old(waitingQueue) && old(passSubscribed) && old(agent) != null && id == old(agent).id ==>
                HasCompletedDestination()
    {
      if source == waitingQueue && passSubscribed {
        OnAgentMayPassQueue(id);
      }
    }

    /** The end of queue `source` moves to (x, y). */
    method DeliverQueueEndMoved(source: WaitingQueue, x: real, y: real)
      requires Valid()
      requires source == waitingQueue && endMovedSubscribed && status == Approaching ==> agent != null
      modifies this, Peers()
      ensures Valid()
      ensures !(source == old(waitingQueue) && old(endMovedSubscribed)) ==>
                unchanged(this) && unchanged(old(Peers()))
      ensures old(status) == MayPass ==> unchanged(this) && unchanged(old(Peers()))
      ensures source == old(waitingQueue) && old(endMovedSubscribed) ==> HandledQueueEndMoved(x, y)
    {
      if source == waitingQueue && endMovedSubscribed {
        OnQueueEndPositionChanged(x, y);
      }
    }

    /** Agent `source` moves to (x, y). */
    method DeliverPositionChanged(source: Agent, x: real, y: real)
      requires Valid()
      modifies this
      ensures Valid()
      ensures source !in old(followSubscriptions) || old(currentWaypoint).None? ==> unchanged(this)
      ensures source in old(followSubscriptions) && old(currentWaypoint).Some? ==>
                Fields() == AfterFollowedMoved(old(Fields()), Vec(x, y), old(waitingQueue.privateSpace))
    {
      if source in followSubscriptions {
        OnFollowedAgentPositionChanged(x, y);
      }
    }
  }
}
