/**
 * The out-and-back route of a collecting drone (`MoveOnWayPoint`). Each frame the
 * drone heads for `waypoints[index]`; a waypoint that is null or already collected is
 * skipped, arriving at the last waypoint on the way out starts the drop sequence, and
 * after the drop the drone walks the route back to index 0.
 *
 * Motion is not modelled: whether the drone reached its waypoint this frame is an input.
 * The drop coroutine is an explicit phase: `droppingItems` is set while it is suspended
 * in its half-second wait, `dropCursor` is its loop variable, and `DropWaitElapsed`
 * resumes it.
 */
module WaypointRoute {
  import opened Wrappers

  /** A scene object, by instance id; a waypoint entry is `None` when the slot is null. */
  type ObjectId = nat

  /** The fields `Update`, `PickUpItem` and the drop coroutine read and write. */
  datatype Route = Route(
    index: int,
    droppingItems: bool,
    itemsCollected: nat,
    returning: bool,
    collected: set<ObjectId>,
    /** The drop loop's counter, meaningful while the coroutine is suspended. */
    dropCursor: nat,
    /** How many items the drop sequence has spawned so far. */
    itemsDropped: nat)

  /** What one call of `Update` did. `OutOfRange` is the list indexer's exception, which ends that frame's call. */
  datatype Frame = NoWaypoints | HoldingForDrop | OutOfRange | Skipped | Travelling | Arrived

  /** The state a drone starts in. */
  const Initial: Route := Route(0, false, 0, false, {}, 0, 0)

  /** The waypoint at `index` is null or has been picked up. */
  predicate IsSkippable(waypoints: seq<Option<ObjectId>>, r: Route)
    requires 0 <= r.index < |waypoints|
  {
    waypoints[r.index].None? || waypoints[r.index].value in r.collected
  }

  /**
   * The states reachable from `Initial`: the index never goes below 0 nor past the
   * end, and the drop sequence only runs at the last waypoint on the way out, with an
   * item still to drop.
   */
  ghost predicate RouteInv(waypoints: seq<Option<ObjectId>>, r: Route)
  {
    && 0 <= r.index <= |waypoints|
    && (r.droppingItems ==> r.index == |waypoints| - 1 && !r.returning && r.dropCursor < r.itemsCollected)
  }

  /** The end of `DropItemsOneByOne`: flags reset, the counter cleared and the way back begun. */
  function FinishDrop(r: Route): (r': Route)
    ensures !r'.droppingItems && r'.itemsCollected == 0 && r'.returning
    ensures r'.index == r.index && r'.collected == r.collected && r'.itemsDropped == r.itemsDropped
  {
    r.(droppingItems := false, itemsCollected := 0, returning := true)
  }

  /**
   * `StartCoroutine(DropItemsOneByOne())`: the coroutine runs at once up to its first
   * wait. With an item collected it spawns one and suspends; with none it finishes in
   * the same call.
   */
  function StartDrop(r: Route): (r': Route)
    ensures r'.index == r.index && r'.collected == r.collected
    ensures r.itemsCollected > 0 ==>
      r'.droppingItems && r'.dropCursor == 0 && r'.itemsDropped == r.itemsDropped + 1
      && r'.itemsCollected == r.itemsCollected && r'.returning == r.returning
    ensures r.itemsCollected == 0 ==> r' == FinishDrop(r.(dropCursor := 0))
  {
    if 0 < r.itemsCollected then r.(droppingItems := true, dropCursor := 0, itemsDropped := r.itemsDropped + 1)
    else FinishDrop(r.(dropCursor := 0))
  }

  /**
   * The half-second wait of the drop loop has elapsed: the loop counter advances and
   * either one more item is spawned or the sequence ends.
   */
  function Resume(r: Route): (r': Route)
    requires r.droppingItems
    ensures r'.index == r.index && r'.collected == r.collected
    ensures r.dropCursor + 1 < r.itemsCollected ==>
      r' == r.(dropCursor := r.dropCursor + 1, itemsDropped := r.itemsDropped + 1)
    ensures r.dropCursor + 1 >= r.itemsCollected ==> r' == FinishDrop(r.(dropCursor := r.dropCursor + 1))
  {
    var i := r.dropCursor + 1;
    if i < r.itemsCollected then r.(dropCursor := i, itemsDropped := r.itemsDropped + 1)
    else FinishDrop(r.(dropCursor := i))
  }

  /** `PickUpItem`: one more item collected and its object marked as collected. */
  function PickUp(r: Route, obj: ObjectId): (r': Route)
    ensures r'.itemsCollected == r.itemsCollected + 1
    ensures r'.collected == r.collected + {obj} && r.collected <= r'.collected
    ensures r' == r.(itemsCollected := r'.itemsCollected, collected := r'.collected)
  {
    r.(itemsCollected := r.itemsCollected + 1, collected := r.collected + {obj})
  }

  /** One call of `Update`, given whether the drone is at its current waypoint after this frame's motion. */
  function UpdateStep(waypoints: seq<Option<ObjectId>>, r: Route, arrived: bool): (res: (Frame, Route))
    ensures res.0 in {NoWaypoints, HoldingForDrop, OutOfRange, Travelling} ==> res.1 == r
    ensures r.index - 1 <= res.1.index <= r.index + 1
    ensures res.1.collected == r.collected && res.1.itemsCollected <= r.itemsCollected
  {
    if |waypoints| == 0 then (NoWaypoints, r)
    else if r.index == |waypoints| - 1 && r.droppingItems then (HoldingForDrop, r)
    else if !(0 <= r.index < |waypoints|) then (OutOfRange, r)
    else if IsSkippable(waypoints, r) then
      (Skipped, r.(index := if r.returning && r.index > 0 then r.index - 1 else r.index + 1))
    else if !arrived then (Travelling, r)
    else if r.index == |waypoints| - 1 && !r.returning then (Arrived, StartDrop(r.(droppingItems := true)))
    else if r.returning && r.index == 0 then (Arrived, r.(returning := false))
    else (Arrived, r.(index := if r.returning then r.index - 1 else r.index + 1))
  }

  /** The drop coroutine resumed `k` times, or until it ends. */
  function ResumeTimes(r: Route, k: nat): Route
    decreases k
  {
    if k == 0 || !r.droppingItems then r else ResumeTimes(Resume(r), k - 1)
  }

  /** With no waypoints `Update` does nothing at all. */
  lemma UpdateWithoutWaypoints(r: Route, arrived: bool)
    ensures UpdateStep([], r, arrived) == (NoWaypoints, r)
  {
  }

  /** At the last waypoint with the drop sequence running, `Update` leaves every field alone. */
  lemma HoldingWhileDropping(waypoints: seq<Option<ObjectId>>, r: Route, arrived: bool)
    requires |waypoints| > 0 && r.index == |waypoints| - 1 && r.droppingItems
    ensures UpdateStep(waypoints, r, arrived) == (HoldingForDrop, r)
  {
  }

  /**
   * A null or collected waypoint is passed over without moving: one step back when
   * returning from beyond index 0, one step forward otherwise, and nothing else changes.
   */
  lemma SkipsUnavailableWaypoint(waypoints: seq<Option<ObjectId>>, r: Route, arrived: bool)
    requires RouteInv(waypoints, r) && 0 <= r.index < |waypoints| && !r.droppingItems
    requires waypoints[r.index].None? || waypoints[r.index].value in r.collected
    ensures var (frame, r') := UpdateStep(waypoints, r, arrived);
      && frame == Skipped
      && r'.index == (if r.returning && r.index > 0 then r.index - 1 else r.index + 1)
      && r' == r.(index := r'.index)
  {
  }

  /**
   * Reaching the last waypoint on the way out starts the drop sequence where the drone
   * is: with items collected it is left running, having spawned the first; with none it
   * has already ended and the drone is on its way back.
   */
  lemma ArrivingAtLastStartsDrop(waypoints: seq<Option<ObjectId>>, r: Route)
    requires RouteInv(waypoints, r) && r.index == |waypoints| - 1 && !r.returning && !r.droppingItems
    requires !IsSkippable(waypoints, r)
    ensures var (frame, r') := UpdateStep(waypoints, r, true);
      && frame == Arrived && r'.index == r.index
      && (r.itemsCollected > 0 ==> r'.droppingItems && r'.itemsDropped == r.itemsDropped + 1 && !r'.returning)
      && (r.itemsCollected == 0 ==> !r'.droppingItems && r'.returning && r'.itemsDropped == r.itemsDropped)
  {
  }

  /** Arriving home at index 0 ends the way back and stays at index 0. */
  lemma ArrivingHomeEndsReturn(waypoints: seq<Option<ObjectId>>, r: Route)
    requires RouteInv(waypoints, r) && 0 < |waypoints| && r.index == 0 && r.returning
    requires !IsSkippable(waypoints, r)
    ensures UpdateStep(waypoints, r, true) == (Arrived, r.(returning := false))
  {
  }

  /** Any other arrival steps the index back when returning and forward otherwise. */
  lemma ArrivingElsewhereAdvances(waypoints: seq<Option<ObjectId>>, r: Route)
    requires RouteInv(waypoints, r) && 0 <= r.index < |waypoints| && !r.droppingItems
    requires !IsSkippable(waypoints, r)
    requires !(r.index == |waypoints| - 1 && !r.returning) && !(r.returning && r.index == 0)
    ensures var (frame, r') := UpdateStep(waypoints, r, true);
      && frame == Arrived
      && r' == r.(index := if r.returning then r.index - 1 else r.index + 1)
      && 0 <= r'.index < |waypoints|
  {
  }

  /** `Update` keeps the route within bounds and the drop sequence at the last waypoint. */
  lemma UpdatePreservesRouteInv(waypoints: seq<Option<ObjectId>>, r: Route, arrived: bool)
    requires RouteInv(waypoints, r)
    ensures RouteInv(waypoints, UpdateStep(waypoints, r, arrived).1)
  {
    if |waypoints| > 0 && 0 <= r.index < |waypoints| && !(r.index == |waypoints| - 1 && r.droppingItems) {
      if !IsSkippable(waypoints, r) && arrived && r.index == |waypoints| - 1 && !r.returning {
        var r' := UpdateStep(waypoints, r, arrived).1;
        assert r' == StartDrop(r.(droppingItems := true));
      }
    }
  }

  /** Picking up an item keeps the route valid. */
  lemma PickUpPreservesRouteInv(waypoints: seq<Option<ObjectId>>, r: Route, obj: ObjectId)
    requires RouteInv(waypoints, r)
    ensures RouteInv(waypoints, PickUp(r, obj))
  {
  }

  /** Resuming the drop sequence keeps the route valid. */
  lemma ResumePreservesRouteInv(waypoints: seq<Option<ObjectId>>, r: Route)
    requires RouteInv(waypoints, r) && r.droppingItems
    ensures RouteInv(waypoints, Resume(r))
  {
  }

  /**
   * A suspended drop sequence with no pick-up in between ends after as many waits as
   * items remain to drop, having spawned exactly those items, and leaves the drone
   * empty-handed and on its way back.
   */
  lemma {:induction false} ResumesSpawnTheRest(r: Route)
    requires r.droppingItems && r.dropCursor < r.itemsCollected
    ensures var r' := ResumeTimes(r, r.itemsCollected - r.dropCursor);
      && !r'.droppingItems && r'.returning && r'.itemsCollected == 0
      && r'.itemsDropped == r.itemsDropped + (r.itemsCollected - r.dropCursor - 1)
      && r'.index == r.index && r'.collected == r.collected
    decreases r.itemsCollected - r.dropCursor
  {
    var next := Resume(r);
    if r.dropCursor + 1 < r.itemsCollected {
      ResumesSpawnTheRest(next);
    } else {
      assert ResumeTimes(next, 0) == next;
    }
  }

  /**
   * The whole drop sequence spawns one item per item collected: started with `n`
   * items and left undisturbed, it ends after `n` waits with `n` items spawned.
   */
  lemma DropSpawnsOnePerItem(r: Route)
    requires !r.droppingItems
    ensures var r' := ResumeTimes(StartDrop(r.(droppingItems := true)), r.itemsCollected);
      && !r'.droppingItems && r'.returning && r'.itemsCollected == 0
      && r'.itemsDropped == r.itemsDropped + r.itemsCollected
  {
    var s := StartDrop(r.(droppingItems := true));
    if r.itemsCollected > 0 {
      ResumesSpawnTheRest(s);
    }
  }

  /**
   * A null or collected last waypoint on the way out is skipped past the end of the
   * list: the index becomes `waypoints.Count`, no drop ever starts, and every later
   * `Update` fails at the indexer with nothing changed.
   */
  lemma SkippingLastWaypointOverruns(waypoints: seq<Option<ObjectId>>, r: Route, later: bool)
    requires RouteInv(waypoints, r) && |waypoints| > 0 && r.index == |waypoints| - 1
    requires !r.returning && !r.droppingItems && IsSkippable(waypoints, r)
    ensures var r' := UpdateStep(waypoints, r, later).1;
      && r'.index == |waypoints| && RouteInv(waypoints, r')
      && UpdateStep(waypoints, r', later) == (OutOfRange, r')
  {
  }

  /** The drone of `MoveOnWayPoint.cs`, with the fields its route logic changes. */
  class MoveOnWayPoint {
    const waypoints: seq<Option<ObjectId>>
    var index: int
    var droppingItems: bool
    var itemsCollected: nat
    var returning: bool
    var collectedWaypoints: set<ObjectId>
    var dropCursor: nat
    var itemsDropped: nat

    function Model(): Route
      reads this
    {
      Route(index, droppingItems, itemsCollected, returning, collectedWaypoints, dropCursor, itemsDropped)
    }

    ghost predicate Valid()
      reads this
    {
      RouteInv(waypoints, Model())
    }

    constructor (waypoints: seq<Option<ObjectId>>)
      ensures this.waypoints == waypoints && Model() == Initial && Valid()
    {
      this.waypoints := waypoints;
      index, droppingItems, itemsCollected, returning := 0, false, 0, false;
      collectedWaypoints, dropCursor, itemsDropped := {}, 0, 0;
    }

    /** `Update`, given the arrival verdict of this frame's motion. */
    method Update(arrived: bool) returns (frame: Frame)
      requires Valid()
      modifies this
      ensures Valid()
      ensures (frame, Model()) == UpdateStep(waypoints, old(Model()), arrived)
    {
      UpdatePreservesRouteInv(waypoints, Model(), arrived);
      if |waypoints| == 0 {
        return NoWaypoints;
      }
      if index == |waypoints| - 1 && droppingItems {
        return HoldingForDrop;
      }
      if !(0 <= index < |waypoints|) {
        return OutOfRange;
      }
      if waypoints[index].None? || waypoints[index].value in collectedWaypoints {
        if returning && index > 0 {
          index := index - 1;
        } else {
          index := index + 1;
        }
        return Skipped;
      }
      if !arrived {
        return Travelling;
      }
      if index == |waypoints| - 1 && !returning {
        droppingItems := true;
        DropItemsOneByOne();
      } else if returning && index == 0 {
        returning := false;
      } else {
        if returning {
          index := index - 1;
        } else {
          index := index + 1;
        }
      }
      frame := Arrived;
    }

    /** `PickUpItem`, for the object the drone touched. */
    method PickUpItem(obj: ObjectId)
      requires Valid()
      modifies this
      ensures Valid()
      ensures Model() == PickUp(old(Model()), obj)
    {
      PickUpPreservesRouteInv(waypoints, Model(), obj);
      itemsCollected := itemsCollected + 1;
      collectedWaypoints := collectedWaypoints + {obj};
    }

    /** `DropItemsOneByOne` up to its first wait. */
    method DropItemsOneByOne()
      requires droppingItems
      modifies this
      ensures Model() == StartDrop(old(Model()))
    {
      dropCursor := 0;
      if dropCursor < itemsCollected {
        itemsDropped := itemsDropped + 1;
      } else {
        droppingItems := false;
        itemsCollected := 0;
        returning := true;
      }
    }

    /** The drop loop's wait has elapsed: the coroutine runs on to its next wait or its end. */
    method DropWaitElapsed()
      requires Valid() && droppingItems
      modifies this
      ensures Valid()
      ensures Model() == Resume(old(Model()))
    {
      ResumePreservesRouteInv(waypoints, Model());
      dropCursor := dropCursor + 1;
      if dropCursor < itemsCollected {
        itemsDropped := itemsDropped + 1;
      } else {
        droppingItems := false;
        itemsCollected := 0;
        returning := true;
      }
    }
  }
}
