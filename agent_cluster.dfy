/**
 * An agent cluster: a spawn area that, when the scene starts, turns into
 * `count` agents of one type scattered over a rectangle around its
 * position, all sharing its list of waypoints. The model covers its
 * bookkeeping: the id it draws from a process-wide counter, its plain
 * attributes and the waypoint list, to which waiting queues are added as
 * waypoints too.
 */
module AgentClusters {
  import opened Geometry

  /**
   * The identity of a waypoint in the scene. A waiting queue is a kind of
   * waypoint, so a queue is named by its waypoint identity as well.
   */
  type WaypointId = nat

  /** Width and height of the rectangle agents are spread over. */
  datatype Size = Size(width: real, height: real)

  /**
   * `s` with every occurrence of `w` dropped, the remaining entries in
   * their original order.
   */
  function RemoveAll(s: seq<WaypointId>, w: WaypointId): (r: seq<WaypointId>)
    ensures w !in r
    ensures forall x :: x in r <==> x in s && x != w
    ensures |r| + multiset(s)[w] == |s|
  {
    if |s| == 0 then []
    else
      assert s == [s[0]] + s[1..];
      if s[0] == w then RemoveAll(s[1..], w)
      else [s[0]] + RemoveAll(s[1..], w)
  }

  /** Removal works piecewise: it keeps the order of what it keeps. */
  lemma {:induction false} RemoveAllAppend(s: seq<WaypointId>, t: seq<WaypointId>, w: WaypointId)
    ensures RemoveAll(s + t, w) == RemoveAll(s, w) + RemoveAll(t, w)
  {
    if |s| == 0 {
      assert s + t == t;
    } else {
      assert (s + t)[1..] == s[1..] + t;
      RemoveAllAppend(s[1..], t, w);
    }
  }

  /** Removal drops exactly the occurrences of `w` and nothing else. */
  lemma {:induction false} RemoveAllMultiset(s: seq<WaypointId>, w: WaypointId)
    ensures multiset(RemoveAll(s, w)) == multiset(s)[w := 0]
  {
    if |s| == 0 {
    } else {
      assert s == [s[0]] + s[1..];
      RemoveAllMultiset(s[1..], w);
    }
  }

  /** Removing an absent waypoint leaves the list as it was. */
  lemma {:induction false} RemoveAllAbsent(s: seq<WaypointId>, w: WaypointId)
    requires w !in s
    ensures RemoveAll(s, w) == s
  {
    if |s| == 0 {
    } else {
      assert s == [s[0]] + s[1..];
      RemoveAllAbsent(s[1..], w);
    }
  }

  /** Removing twice is removing once. */
  lemma RemoveAllIdempotent(s: seq<WaypointId>, w: WaypointId)
    ensures RemoveAll(RemoveAll(s, w), w) == RemoveAll(s, w)
  {
    RemoveAllAbsent(RemoveAll(s, w), w);
  }

  /** Removing a waypoint right after adding it gives what removing it alone gives. */
  lemma RemoveAfterAdd(s: seq<WaypointId>, w: WaypointId)
    ensures RemoveAll(s + [w], w) == RemoveAll(s, w)
  {
    RemoveAllAppend(s, [w], w);
    assert RemoveAll([w], w) == [];
  }

  /**
   * The process-wide counter clusters draw their ids from; the simulator
   * keeps it as a function-local static that starts at 0.
   */
  class ClusterIdCounter {
    var lastId: int
    /** The ids handed out so far. */
    ghost var issued: set<int>

    ghost predicate Valid()
      reads this
    {
      0 <= lastId && forall j :: j in issued ==> 0 < j <= lastId
    }

    constructor ()
      ensures Valid()
      ensures lastId == 0 && issued == {}
    {
      lastId := 0;
      issued := {};
    }
  }

  /** The attributes of a cluster, as one value. */
  datatype ClusterFields = ClusterFields(
    position: Vec,
    count: int,
    distribution: Size,
    agentType: int,
    shallCreateGroups: bool,
    waypoints: seq<WaypointId>)

  class AgentCluster {
    const id: int
    var position: Vec
    /** How many agents the cluster spawns. */
    var count: int
    var distribution: Size
    var agentType: int
    var shallCreateGroups: bool
    /** The waypoints every spawned agent walks through, in order. */
    var waypoints: seq<WaypointId>

    function Fields(): ClusterFields
      reads this
    {
      ClusterFields(position, count, distribution, agentType, shallCreateGroups, waypoints)
    }

    /**
     * A new cluster at (xIn, yIn) spawning countIn agents. It takes the
     * next id from the counter, larger than every id issued before, and
     * starts with no spread, agent type 0, group creation on and no
     * waypoints.
     */
    constructor (ids: ClusterIdCounter, xIn: real, yIn: real, countIn: int)
      requires ids.Valid()
      modifies ids
      ensures ids.Valid()
      ensures id == old(ids.lastId) + 1 && ids.lastId == id
      ensures forall j :: j in old(ids.issued) ==> j < id
      ensures ids.issued == old(ids.issued) + {id}
      ensures Fields() == ClusterFields(Vec(xIn, yIn), countIn, Size(0.0, 0.0), 0, true, [])
    {
      ids.lastId := ids.lastId + 1;
      ids.issued := ids.issued + {ids.lastId};
      id := ids.lastId;
      position := Vec(xIn, yIn);
      count := countIn;
      distribution := Size(0.0, 0.0);
      agentType := 0;
      shallCreateGroups := true;
      waypoints := [];
    }

    function GetId(): int
      reads this
    {
      id
    }

    function GetCount(): int
      reads this
    {
      count
    }

    function GetWaypoints(): seq<WaypointId>
      reads this
    {
      waypoints
    }

    function GetPosition(): Vec
      reads this
    {
      position
    }

    function GetType(): int
      reads this
    {
      agentType
    }

    function GetShallCreateGroups(): bool
      reads this
    {
      shallCreateGroups
    }

    function GetDistribution(): Size
      reads this
    {
      distribution
    }

    method SetCount(countIn: int)
      modifies this
      ensures GetCount() == countIn
      ensures Fields() == old(Fields()).(count := countIn)
    {
      count := countIn;
    }

    /** Appends `w`; a waypoint may appear more than once. */
    method AddWaypoint(w: WaypointId)
      modifies this
      ensures GetWaypoints() == old(GetWaypoints()) + [w]
      ensures Fields() == old(Fields()).(waypoints := old(waypoints) + [w])
    {
      waypoints := waypoints + [w];
    }

    /**
     * Drops every occurrence of `w`, keeping the others in order, and
     * answers whether there was any.
     */
    method RemoveWaypoint(w: WaypointId) returns (removed: bool)
      modifies this
      ensures removed <==> w in old(waypoints)
      ensures w !in waypoints
      ensures !removed ==> waypoints == old(waypoints)
      ensures Fields() == old(Fields()).(waypoints := RemoveAll(old(waypoints), w))
    {
      var before := |waypoints|;
      waypoints := RemoveAll(waypoints, w);
      removed := before - |waypoints| > 0;
      if !removed {
        RemoveAllAbsent(old(waypoints), w);
      }
    }

    /** A waiting queue is added to the same list, as a waypoint. */
    method AddWaitingQueue(queue: WaypointId)
      modifies this
      ensures Fields() == old(Fields()).(waypoints := old(waypoints) + [queue])
    {
      AddWaypoint(queue);
    }

    /** A waiting queue is removed from the same list, as a waypoint. */
    method RemoveWaitingQueue(queue: WaypointId) returns (removed: bool)
      modifies this
      ensures removed <==> queue in old(waypoints)
      ensures Fields() == old(Fields()).(waypoints := RemoveAll(old(waypoints), queue))
    {
      removed := RemoveWaypoint(queue);
    }

    method SetPosition(positionIn: Vec)
      modifies this
      ensures GetPosition() == positionIn
      ensures Fields() == old(Fields()).(position := positionIn)
    {
      position := positionIn;
    }

    method SetPositionXY(px: real, py: real)
      modifies this
      ensures GetPosition() == Vec(px, py)
      ensures Fields() == old(Fields()).(position := Vec(px, py))
    {
      SetPosition(Vec(px, py));
    }

    /** Moves the cluster horizontally; its y coordinate stays. */
    method SetX(xIn: real)
      modifies this
      ensures GetPosition() == Vec(xIn, old(position.y))
      ensures Fields() == old(Fields()).(position := old(position).(x := xIn))
    {
      position := position.(x := xIn);
    }

    /** Moves the cluster vertically; its x coordinate stays. */
    method SetY(yIn: real)
      modifies this
      ensures GetPosition() == Vec(old(position.x), yIn)
      ensures Fields() == old(Fields()).(position := old(position).(y := yIn))
    {
      position := position.(y := yIn);
    }

    method SetType(typeIn: int)
      modifies this
      ensures GetType() == typeIn
      ensures Fields() == old(Fields()).(agentType := typeIn)
    {
      agentType := typeIn;
    }

    method SetShallCreateGroups(shallCreateGroupsIn: bool)
      modifies this
      ensures GetShallCreateGroups() == shallCreateGroupsIn
      ensures Fields() == old(Fields()).(shallCreateGroups := shallCreateGroupsIn)
    {
      shallCreateGroups := shallCreateGroupsIn;
    }

    method SetDistribution(xIn: real, yIn: real)
      modifies this
      ensures GetDistribution() == Size(xIn, yIn)
      ensures Fields() == old(Fields()).(distribution := Size(xIn, yIn))
    {
      distribution := distribution.(width := xIn);
      distribution := distribution.(height := yIn);
    }

    /** Changes the spread's width; its height stays. */
    method SetDistributionWidth(xIn: real)
      modifies this
      ensures GetDistribution() == Size(xIn, old(distribution.height))
      ensures Fields() == old(Fields()).(distribution := old(distribution).(width := xIn))
    {
      distribution := distribution.(width := xIn);
    }

    /** Changes the spread's height; its width stays. */
    method SetDistributionHeight(yIn: real)
      modifies this
      ensures GetDistribution() == Size(old(distribution.width), yIn)
      ensures Fields() == old(Fields()).(distribution := old(distribution).(height := yIn))
    {
      distribution := distribution.(height := yIn);
    }
  }
}
