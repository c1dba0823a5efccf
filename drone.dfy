/**
 * The patrolling drone of `Drone.cs`: it flies its waypoints in order, waits at the
 * last one (the landing zone) and then starts the route again from the first, keeping
 * a one-message outbox for the guard and a one-message inbox from it.
 *
 * Motion is not modelled: whether the drone reached its waypoint this frame is an
 * input. The ten-second wait at the landing zone is an explicit phase ended by
 * `LandingWaitElapsed`.
 */
module Drone {
  import opened Text

  /** What the drone tells the guard when it reaches the landing zone. */
  const LandingMessage: string := "Drone: Arrived at landing zone."

  /** The status the drone reports on every frame it is patrolling. */
  function PatrolStatus(index: nat): (m: string)
    ensures m == "DroneStatus: Patrolling at waypoint " + NatToString(index)
    ensures m != LandingMessage
  {
    var m := "DroneStatus: Patrolling at waypoint " + NatToString(index);
    assert m[5] != LandingMessage[5];
    m
  }

  /** The fields the drone's route and message logic read and write. */
  datatype DroneState = DroneState(index: nat, waitingAtLanding: bool, messageToSend: string, messageReceived: string)

  /** The index names a waypoint, or is 0 when there are none. */
  predicate DroneInv(waypointCount: nat, d: DroneState)
  {
    d.index < waypointCount || d.index == 0
  }

  /** `StartCoroutine(WaitAtLanding())` up to its wait: waiting, with the landing notice in the outbox. */
  function StartLanding(d: DroneState): (d': DroneState)
    ensures d'.waitingAtLanding && d'.messageToSend == LandingMessage
    ensures d' == d.(waitingAtLanding := d'.waitingAtLanding, messageToSend := d'.messageToSend)
  {
    d.(waitingAtLanding := true, messageToSend := LandingMessage)
  }

  /** The landing wait has elapsed: the route starts again from the first waypoint. */
  function EndLanding(d: DroneState): (d': DroneState)
    requires d.waitingAtLanding
    ensures d'.index == 0 && !d'.waitingAtLanding
    ensures d' == d.(index := d'.index, waitingAtLanding := d'.waitingAtLanding)
  {
    d.(index := 0, waitingAtLanding := false)
  }

  /** `MoveTowardsWaypoint`, given whether the drone has reached `waypoints[index]`. */
  function MoveStep(waypointCount: nat, d: DroneState, arrived: bool): (d': DroneState)
    requires d.index < waypointCount
    ensures d'.index < waypointCount && d'.messageReceived == d.messageReceived
    ensures !arrived ==> d' == d
  {
    if !arrived then d
    else if d.index == waypointCount - 1 then StartLanding(d)
    else d.(index := (d.index + 1) % waypointCount)
  }

  /** `ProcessMessage`: the guard's reply is consumed, and while patrolling the status is posted. */
  function ProcessStep(d: DroneState): (d': DroneState)
    ensures d'.messageReceived == "" && d'.index == d.index && d'.waitingAtLanding == d.waitingAtLanding
    ensures d.waitingAtLanding ==> d'.messageToSend == d.messageToSend
  {
    var d1 := if d.messageReceived != "" then d.(messageReceived := "") else d;
    if !d1.waitingAtLanding then d1.(messageToSend := PatrolStatus(d1.index)) else d1
  }

  /** One call of `Update`. */
  function UpdateStep(waypointCount: nat, d: DroneState, arrived: bool): (d': DroneState)
    requires DroneInv(waypointCount, d)
    ensures DroneInv(waypointCount, d')
    ensures d' == d || d'.messageReceived == ""
  {
    if waypointCount == 0 || d.waitingAtLanding then d
    else ProcessStep(MoveStep(waypointCount, d, arrived))
  }

  /** Without waypoints, or while waiting at the landing zone, `Update` changes nothing. */
  lemma UpdateIdle(waypointCount: nat, d: DroneState, arrived: bool)
    requires DroneInv(waypointCount, d) && (waypointCount == 0 || d.waitingAtLanding)
    ensures UpdateStep(waypointCount, d, arrived) == d
  {
  }

  /** `Update` and the end of the landing wait keep the index on a waypoint. */
  lemma IndexStaysInRange(waypointCount: nat, d: DroneState, arrived: bool)
    requires DroneInv(waypointCount, d)
    ensures DroneInv(waypointCount, UpdateStep(waypointCount, d, arrived))
    ensures d.waitingAtLanding ==> DroneInv(waypointCount, EndLanding(d))
  {
  }

  /**
   * Reaching a waypoint other than the last moves on to the next one, and the status
   * posted in the same frame names that next waypoint.
   */
  lemma ArrivalAdvances(waypointCount: nat, d: DroneState)
    requires d.index < waypointCount - 1 && !d.waitingAtLanding
    ensures var d' := UpdateStep(waypointCount, d, true);
      && d'.index == d.index + 1 && !d'.waitingAtLanding
      && d'.messageToSend == PatrolStatus(d.index + 1) && d'.messageReceived == ""
  {
    var next := d.index + 1;
    assert next % waypointCount == next;
    assert MoveStep(waypointCount, d, true) == d.(index := next);
  }

  /**
   * Reaching the last waypoint starts the landing wait and posts the landing notice;
   * the status report of the same frame does not overwrite it, and the index stays.
   */
  lemma ArrivalAtLandingZone(waypointCount: nat, d: DroneState)
    requires d.index == waypointCount - 1 && !d.waitingAtLanding
    ensures var d' := UpdateStep(waypointCount, d, true);
      && d'.waitingAtLanding && d'.messageToSend == LandingMessage && d'.index == d.index
      && d'.messageReceived == ""
  {
  }

  /** While the drone is short of its waypoint it stays on it and reports its status. */
  lemma TravellingReportsStatus(waypointCount: nat, d: DroneState)
    requires d.index < waypointCount && !d.waitingAtLanding
    ensures var d' := UpdateStep(waypointCount, d, false);
      && d'.index == d.index && !d'.waitingAtLanding
      && d'.messageToSend == PatrolStatus(d.index) && d'.messageReceived == ""
  {
  }

  /** `ProcessMessage` empties the inbox whether or not it held a reply. */
  lemma ProcessEmptiesInbox(d: DroneState)
    ensures ProcessStep(d).messageReceived == ""
    ensures ProcessStep(d).index == d.index && ProcessStep(d).waitingAtLanding == d.waitingAtLanding
  {
  }

  /**
   * After the landing wait the route restarts at the first waypoint rather than
   * resuming: the next arrival heads for waypoint 1, or lands again on a one-waypoint route.
   */
  lemma LandingRestartsRoute(waypointCount: nat, d: DroneState)
    requires 0 < waypointCount && d.waitingAtLanding
    ensures var d' := UpdateStep(waypointCount, EndLanding(d), true);
      && (waypointCount > 1 ==> d'.index == 1 && d'.messageToSend == PatrolStatus(1))
      && (waypointCount == 1 ==> d'.index == 0 && d'.waitingAtLanding && d'.messageToSend == LandingMessage)
  {
    var e := EndLanding(d);
    if waypointCount > 1 {
      ArrivalAdvances(waypointCount, e);
    } else {
      ArrivalAtLandingZone(waypointCount, e);
    }
  }

  /** The drone of `Drone.cs`; the route is reduced to its number of waypoints. */
  class DroneAgent {
    const waypointCount: nat
    var index: nat
    var messageToSend: string
    var messageReceived: string
    var waitingAtLanding: bool

    function Model(): DroneState
      reads this
    {
      DroneState(index, waitingAtLanding, messageToSend, messageReceived)
    }

    constructor (waypointCount: nat)
      ensures this.waypointCount == waypointCount
      ensures Model() == DroneState(0, false, "", "") && DroneInv(waypointCount, Model())
    {
      this.waypointCount := waypointCount;
      index, waitingAtLanding, messageToSend, messageReceived := 0, false, "", "";
    }

    /** `Update`, given whether this frame's motion reached the current waypoint. */
    method Update(arrived: bool)
      requires DroneInv(waypointCount, Model())
      modifies this
      ensures DroneInv(waypointCount, Model())
      ensures Model() == UpdateStep(waypointCount, old(Model()), arrived)
    {
      IndexStaysInRange(waypointCount, Model(), arrived);
      if waypointCount == 0 || waitingAtLanding {
        return;
      }
      MoveTowardsWaypoint(arrived);
      ProcessMessage();
    }

    method MoveTowardsWaypoint(arrived: bool)
      requires index < waypointCount
      modifies this
      ensures Model() == MoveStep(waypointCount, old(Model()), arrived)
    {
      if arrived {
        if index == waypointCount - 1 {
          WaitAtLanding();
        } else {
          index := (index + 1) % waypointCount;
        }
      }
    }

    /** `WaitAtLanding` up to its ten-second wait. */
    method WaitAtLanding()
      modifies this
      ensures Model() == StartLanding(old(Model()))
    {
      waitingAtLanding := true;
      messageToSend := LandingMessage;
    }

    /** The ten-second wait has elapsed: the rest of `WaitAtLanding`. */
    method LandingWaitElapsed()
      requires DroneInv(waypointCount, Model()) && waitingAtLanding
      modifies this
      ensures DroneInv(waypointCount, Model())
      ensures Model() == EndLanding(old(Model()))
    {
      index := 0;
      waitingAtLanding := false;
    }

    method ProcessMessage()
      modifies this
      ensures Model() == ProcessStep(old(Model()))
    {
      if messageReceived != "" {
        messageReceived := "";
      }
      if !waitingAtLanding {
        messageToSend := PatrolStatus(index);
      }
    }
  }
}
