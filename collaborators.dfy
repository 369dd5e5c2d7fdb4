/**
 * The two objects the queueing planner talks to, reduced to the interface
 * it uses: an agent (its id, its position and the set of forces switched
 * off for it) and a waiting queue (its anchor, its end, the private-space
 * offset along its direction, and the agents enqueued so far).
 *
 * Both live outside the planner: the scene moves agents and the queue
 * moves its end between planner calls, so their fields are `var`s that
 * the planner only reads, except for the two calls below that the
 * planner makes on them.
 */
module Collaborators {
  import opened Geometry

  /** Length of the private-space offset kept behind the agent ahead. */
  const PrivateSpaceDistance: real := 0.7

  /** A simulated pedestrian. */
  class Agent {
    const id: int
    var position: Vec
    var disabledForces: set<string>

    constructor (idIn: int, positionIn: Vec)
      ensures id == idIn && position == positionIn && disabledForces == {}
    {
      id := idIn;
      position := positionIn;
      disabledForces := {};
    }

    /** Switches one named steering force off; nothing else changes. */
    method DisableForce(name: string)
      modifies this
      ensures disabledForces == old(disabledForces) + {name}
      ensures position == old(position)
    {
      disabledForces := disabledForces + {name};
    }
  }

  /** A line of agents waiting at a service point. */
  class WaitingQueue {
    /** The queue's own position, where its head stands. */
    var anchor: Vec
    /** Where the last agent of the queue stands. */
    var endPosition: Vec
    /**
     * The displacement of length PrivateSpaceDistance along the queue's
     * direction; the simulator derives it from the direction with a polar
     * conversion, which the model takes as given.
     */
    var privateSpace: Vec
    /** The agents enqueued so far, head first. */
    var queued: seq<Agent>

    /** The private-space offset has length PrivateSpaceDistance. */
    ghost predicate Valid()
      reads this
    {
      Norm2(privateSpace) == PrivateSpaceDistance * PrivateSpaceDistance
    }

    constructor (anchorIn: Vec, endIn: Vec, privateSpaceIn: Vec)
      requires Norm2(privateSpaceIn) == PrivateSpaceDistance * PrivateSpaceDistance
      ensures Valid()
      ensures anchor == anchorIn && endPosition == endIn && privateSpace == privateSpaceIn
      ensures queued == []
    {
      anchor := anchorIn;
      endPosition := endIn;
      privateSpace := privateSpaceIn;
      queued := [];
    }

    predicate IsEmpty()
      reads this
    {
      |queued| == 0
    }

    /** The agent that a newcomer would stand behind, if any. */
    function Last(): (r: Agent?)
      reads this
      ensures r == null <==> IsEmpty()
      ensures r != null ==> r in queued
    {
      if |queued| == 0 then null else queued[|queued| - 1]
    }

    /**
     * Appends `a` to the queue and answers the agent now immediately ahead
     * of it, or null when `a` is the head.
     */
    method Enqueue(a: Agent) returns (ahead: Agent?)
      modifies this
      ensures queued == old(queued) + [a]
      ensures ahead == old(Last())
      ensures anchor == old(anchor) && privateSpace == old(privateSpace)
      ensures old(Valid()) ==> Valid()
    {
      ahead := Last();
      queued := queued + [a];
    }
  }
}
