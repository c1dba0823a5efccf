# Warehouse robots, patrol drones and the vision server: a Dafny model

This project models the decision logic of a multi-agent simulation. It has two parts:

- a Python warehouse where robots sort items onto per-type stacks;
- a set of Unity agents:
  - a collecting drone that flies an out-and-back route;
  - a patrolling drone;
  - a guard and security cameras that exchange one-slot messages;
  - a vision server that picks the best detector box for a robot's camera frame.

The model covers the bookkeeping. Rendering, physics, sockets and the detector itself are not modelled.

Modules, one per source file plus three shared ones:

- `Wrappers`: `Option` and `Result`.
- `Ontology`: the four item types, shared by the warehouse and the vision server.
- `Text`: substring search with C#'s ordinal `Contains`, and the decimal rendering of a `nat` that string interpolation performs.
- `Warehouse` (`main.py`).
  - Robots cycle Idle → Seeking → Carrying → Idle.
  - The spec function `RobotTick` is one iteration of the robot loop of `update`. `Ticks` is a whole pass over the robots in list order.
  - The class `Warehouse` holds the fields that `update` changes in place. Its `Update` method is proved to compute `Ticks` and to keep the invariant `Inv`:
    - every stack holds only its own type;
    - per type, loose plus stacked items number five;
    - carried items are loose items;
    - no item has two carriers;
    - a carrying robot holds an item.
  - Steering is an oracle `Step`, which gives the new position and whether the target was reached.
- `WaypointRoute` (`MoveOnWayPoint.cs`).
  - The route's index and flags change in `Update`.
  - The drop coroutine is an explicit phase: `droppingItems` is set while the coroutine waits, `dropCursor` is its loop counter, and `DropWaitElapsed` resumes it.
  - Skipping a null or collected *last* waypoint on the way out moves the index to `waypoints.Count`. From then on every `Update` fails at the list indexer and changes nothing. This is modelled as written: the frame result `OutOfRange` stands for the exception. `SkippingLastWaypointOverruns` states it.
- `Drone` (`Drone.cs`): the forward patrol, the landing wait as an explicit phase, and the status and landing messages.
- `Guard` (`Guardia.cs`): the reply policy and the two inbox/outbox channels.
- `Camera` (`Camara.cs`): the 1% alert and the inbox.
- `Vision` (`unity-warehouse-vision.py`):
  - the class-name table;
  - the best-box selection loop, proved against the declarative "first most confident qualifying box";
  - the robot registry;
  - the message-draining loop, which stops at the first exception.

Every imperative operation of the sources is a method on a class with the source's fields. Its `ensures` ties the new state to a specification function of the old state. The lemmas state what the source promises about those functions.

## Model

| member | source | states |
|---|---|---|
| Ontology.TypeIndex | main.py:173-174 | each item type has exactly one position in the declaration order of the enumeration, the index `enumerate` pairs it with |
| Ontology.AllTypesComplete | main.py:11-15 | iterating over the enumeration visits every item type |
| Text.MissingCharNotContained | Guardia.cs:22 | a text lacking some character of the phrase cannot contain the phrase |
| Text.ContainsAt | Guardia.cs:22 | a phrase that occurs at some offset is contained |
| Text.NatToString | Drone.cs:84 | interpolating an index yields a non-empty string of decimal digits, a single digit exactly below ten |
| Text.NatToStringRoundTrip | Drone.cs:84 | reading the interpolated digits back as a decimal number gives the index again |
| Warehouse.IsFull | main.py:29-30 | a stack is not full exactly when it has room for one more item within the capacity of five |
| Warehouse.IsTaskCompleted | main.py:176-177 | `is_task_completed` holds exactly when no loose item is left and no item is carried by any robot |
| Warehouse.Move | main.py:106-108 | without a target the robot is unchanged and has not arrived; with one only its position changes, and arrival implies it had a target |
| Warehouse.Available | main.py:182-183 | an item is available exactly when it is loose and no robot carries it |
| Warehouse.Claimable | main.py:193-195 | an item is claimable exactly when it is loose, lies exactly at the target and nobody carries it |
| Warehouse.ClaimableHeadIsFirst | main.py:193-197 | the item picked up (`target_items[0]`) is the earliest item of the list that qualifies |
| Warehouse.ArgMinFirst | main.py:185-186 | Python's `min` by key: the chosen key is no larger than any other, and every earlier key is strictly larger |
| Warehouse.Nearest | main.py:185-186 | the index of the item `min` picks, always an index of the available list |
| Warehouse.NearestIsFirstClosest | main.py:185-186 | the targeted item is at least as near as every available item, and strictly nearer than every earlier one |
| Warehouse.FirstIndex | main.py:210 | the position of the item's first occurrence: it is there and nowhere before |
| Warehouse.Remove | main.py:210 | `list.remove` takes exactly one occurrence of the item out of the multiset and shortens the list by one; an absent item leaves the list as it is |
| Warehouse.RemoveAt | main.py:210 | removing an item whose first occurrence is at position k splices out exactly position k |
| Warehouse.RemoveDropsFirst | main.py:210 | `list.remove` drops the first occurrence and keeps the other items in their order |
| Warehouse.RemoveKeepsOthers | main.py:210 | removing an item keeps every other item in the list |
| Warehouse.CountOfRemove | main.py:210 | removing an item lowers the count of its type by one and leaves the other counts alone |
| Warehouse.CountsCoverItems | main.py:155-163 | the four per-type counts add up to the number of items |
| Warehouse.RobotTick | main.py:181-216 | a robot's tick keeps every type's stack present and every carrying robot holding an item, and keeps the number of robots |
| Warehouse.Ticks | main.py:180-216 | a whole pass over the robots keeps the same shape facts |
| Warehouse.RobotTickPreservesInv | main.py:181-216 | one robot's tick keeps stacks to their own type, conserves five items per type, keeps carried items loose and gives no item two carriers |
| Warehouse.DepositPreservesInv | main.py:207-213 | putting the carried item on a non-full stack keeps the warehouse invariant |
| Warehouse.DepositKeepsStacks | main.py:209-210 | moving a loose item onto its stack keeps every stack to its own type and five items per type |
| Warehouse.DepositKeepsCarriers | main.py:210-213 | a carrier that puts its item down and goes idle leaves every other carried item loose and no item with two carriers |
| Warehouse.TicksPreserveInv | main.py:179-216 | a whole `update` pass keeps the warehouse invariant |
| Warehouse.StacksWithinCapacity | main.py:207-209 | under the invariant no stack holds more than five items |
| Warehouse.TotalIsTwenty | main.py:150-216 | loose items plus the items on the four stacks always number twenty |
| Warehouse.CarriedItemsStackHasRoom | main.py:207-216 | under the invariant the stack for a carried item is never full, so the full-stack branch of a carrying robot is never taken |
| Warehouse.FullIffNoneLeft | main.py:29-30 | a stack is full exactly when no loose item of its type is left |
| Warehouse.TaskCompletedIffNoItems | main.py:176-177 | under the invariant `is_task_completed` holds exactly when no loose item is left, and then every stack holds five |
| Warehouse.StackedAfterPush | main.py:209 | appending an item to its type's stack adds exactly that item to the stacked multiset |
| Warehouse.DepositConservesContents | main.py:209-210 | a deposit moves the item from the floor to its stack, and the warehouse's contents stay the same multiset |
| Warehouse.RobotTickConservesContents | main.py:181-216 | no tick creates or destroys an item |
| Warehouse.TicksConserveContents | main.py:179-216 | a whole `update` pass conserves the multiset of items, loose or stacked |
| Warehouse.IdleRobotTick | main.py:181-188 | an idle robot with an uncarried item left starts seeking, without moving, towards an uncarried item no other uncarried item is nearer than; with none left nothing changes; other robots, items and stacks are untouched |
| Warehouse.IdleRobotTargetsNearest | main.py:184-188 | the idle robot's new target is the position of the item `min(available, key=distance)` picks, and only its target and state change |
| Warehouse.SeekingRobotArrives | main.py:190-202 | a seeking robot that arrives carries the first uncarried item lying exactly at its target and heads for that type's stack; with none there it goes idle without a target |
| Warehouse.CarryingRobotArrives | main.py:204-216 | a carrying robot that arrives puts its item on a non-full stack, takes its first occurrence off the floor keeping the other items in order, and goes idle empty-handed; at a full stack it goes idle without a target and keeps the item |
| Warehouse.InitialItems | main.py:150-163 | start-up creates twenty items with ids 0..19 in creation order at the given positions |
| Warehouse.InitialItemsPerType | main.py:151-163 | start-up creates exactly five items of each type |
| Warehouse.InitialStacks | main.py:165-174 | start-up creates one empty stack per type, at that type's corner |
| Warehouse.InitialRobots | main.py:139-140 | the robots start idle, empty-handed and without a target, numbered in list order |
| Warehouse.InitialWorldInv | main.py:136-148 | the warehouse as built satisfies the invariant |
| Warehouse.Warehouse.constructor | main.py:136-148 | builds the robots, items and stacks of start-up, satisfies the invariant and has the completion flag down |
| Warehouse.Warehouse.InitializeItems | main.py:150-163 | the nested loops append exactly the twenty initial items |
| Warehouse.Warehouse.InitializeStacks | main.py:165-174 | the loop adds exactly the four initial stacks |
| Warehouse.Warehouse.TickRobot | main.py:181-216 | the body of the robot loop computes `RobotTick` for robot `i` |
| Warehouse.Warehouse.Update | main.py:179-221 | computes a whole pass `Ticks` and keeps the invariant; the completion flag ends up set exactly when it was set or `is_task_completed` now holds, so it is never reset |
| WaypointRoute.FinishDrop | MoveOnWayPoint.cs:177-183 | the end of the drop sequence clears the dropping flag and the counter and starts the way back, without moving |
| WaypointRoute.StartDrop | MoveOnWayPoint.cs:152-173 | with items collected the coroutine spawns the first and waits; with none it finishes in the same call |
| WaypointRoute.Resume | MoveOnWayPoint.cs:154-183 | after a wait the loop counter advances, and either one more item is spawned or the sequence ends |
| WaypointRoute.PickUp | MoveOnWayPoint.cs:135-142 | one more item is collected, the object joins the collected set, and the set only grows |
| WaypointRoute.UpdateStep | MoveOnWayPoint.cs:50-120 | a frame that returns early, fails at the indexer or is still travelling changes nothing; any frame moves the index by at most one and never changes the collected set or adds to the counter |
| WaypointRoute.UpdateWithoutWaypoints | MoveOnWayPoint.cs:52 | with no waypoints `Update` changes nothing |
| WaypointRoute.HoldingWhileDropping | MoveOnWayPoint.cs:64 | at the last waypoint with the drop running, `Update` leaves the index and every flag alone |
| WaypointRoute.SkipsUnavailableWaypoint | MoveOnWayPoint.cs:68-79 | a null or collected waypoint is skipped without moving: back one when returning beyond index 0, forward one otherwise, nothing else changes |
| WaypointRoute.ArrivingAtLastStartsDrop | MoveOnWayPoint.cs:94-99 | arriving at the last waypoint on the way out starts the drop with the index unchanged |
| WaypointRoute.ArrivingHomeEndsReturn | MoveOnWayPoint.cs:101-105 | arriving at index 0 on the way back clears `returning` and stays at index 0 |
| WaypointRoute.ArrivingElsewhereAdvances | MoveOnWayPoint.cs:107-118 | any other arrival moves the index back one when returning and forward one otherwise, staying on the route |
| WaypointRoute.UpdatePreservesRouteInv | MoveOnWayPoint.cs:50-120 | `Update` keeps the index within 0..Count and the drop sequence at the last waypoint on the way out |
| WaypointRoute.PickUpPreservesRouteInv | MoveOnWayPoint.cs:135-142 | picking up keeps the route invariant |
| WaypointRoute.ResumePreservesRouteInv | MoveOnWayPoint.cs:154-183 | resuming the drop keeps the route invariant |
| WaypointRoute.ResumesSpawnTheRest | MoveOnWayPoint.cs:154-183 | a suspended drop ends after as many waits as items remain, having spawned exactly those, empty-handed and on its way back |
| WaypointRoute.DropSpawnsOnePerItem | MoveOnWayPoint.cs:152-183 | the drop sequence spawns one item per item collected, then clears the counter and starts the way back |
| WaypointRoute.SkippingLastWaypointOverruns | MoveOnWayPoint.cs:68-99 | skipping the last waypoint on the way out puts the index at Count; no drop ever starts and every later `Update` fails at the indexer |
| WaypointRoute.MoveOnWayPoint.constructor | MoveOnWayPoint.cs:24-30 | the route starts at index 0 with no flags set and nothing collected |
| WaypointRoute.MoveOnWayPoint.Update | MoveOnWayPoint.cs:50-120 | one frame computes `UpdateStep` and keeps the route invariant |
| WaypointRoute.MoveOnWayPoint.PickUpItem | MoveOnWayPoint.cs:135-148 | computes `PickUp` and keeps the route invariant |
| WaypointRoute.MoveOnWayPoint.DropItemsOneByOne | MoveOnWayPoint.cs:152-173 | the coroutine up to its first wait computes `StartDrop` |
| WaypointRoute.MoveOnWayPoint.DropWaitElapsed | MoveOnWayPoint.cs:173-183 | the coroutine after a wait computes `Resume` and keeps the route invariant |
| Drone.PatrolStatus | Drone.cs:84 | the status names the waypoint index and is never the landing notice |
| Drone.StartLanding | Drone.cs:58-64 | the landing wait starts with the landing notice in the outbox, nothing else changing |
| Drone.EndLanding | Drone.cs:68-70 | the end of the wait resets the index to 0 and clears the waiting flag, nothing else changing |
| Drone.MoveStep | Drone.cs:33-56 | the index stays on a waypoint and the inbox is not touched; without arrival nothing changes |
| Drone.ProcessStep | Drone.cs:73-86 | the inbox is emptied, the route is untouched, and while waiting at the landing zone the outbox is kept |
| Drone.UpdateStep | Drone.cs:25-31 | a frame keeps the index on a waypoint, and either changes nothing or leaves the inbox empty |
| Drone.UpdateIdle | Drone.cs:27 | with no waypoints, or while waiting at the landing zone, `Update` changes nothing |
| Drone.IndexStaysInRange | Drone.cs:45-70 | `Update` and the end of the wait keep the index on a waypoint |
| Drone.ArrivalAdvances | Drone.cs:45-54 | arriving at a waypoint other than the last moves to the next, and the status posted in that frame names it |
| Drone.ArrivalAtLandingZone | Drone.cs:47-64 | arriving at the last waypoint starts the wait with the landing notice, and that frame's status report does not overwrite it |
| Drone.TravellingReportsStatus | Drone.cs:25-31 | short of its waypoint the drone stays on it and reports its status |
| Drone.ProcessEmptiesInbox | Drone.cs:75-79 | `ProcessMessage` leaves the inbox empty and the route untouched |
| Drone.LandingRestartsRoute | Drone.cs:68-70 | after the wait the route restarts at the first waypoint rather than resuming |
| Drone.DroneAgent.constructor | Drone.cs:10-17 | the drone starts at index 0, not waiting, with both mailboxes empty |
| Drone.DroneAgent.Update | Drone.cs:25-31 | one frame computes `UpdateStep` and keeps the index on a waypoint |
| Drone.DroneAgent.MoveTowardsWaypoint | Drone.cs:33-56 | computes the index step of `MoveStep` |
| Drone.DroneAgent.WaitAtLanding | Drone.cs:58-64 | computes `StartLanding` |
| Drone.DroneAgent.LandingWaitElapsed | Drone.cs:68-70 | computes `EndLanding` and keeps the index on a waypoint |
| Drone.DroneAgent.ProcessMessage | Drone.cs:73-86 | computes `ProcessStep` |
| Guard.ReplyToDrone | Guardia.cs:22-29 | the reply is the landing confirmation exactly when the message contains "landing zone", and "continue patrol" otherwise |
| Guard.ProcessStep | Guardia.cs:16-40 | after processing both inboxes are empty |
| Guard.LandingNoticeConfirmed | Guardia.cs:22-24 | the drone's landing notice is answered with the landing confirmation |
| Guard.PatrolStatusContinues | Guardia.cs:26-29 | every patrol status report, whatever its index, is answered with "continue patrol" |
| Guard.ProcessEmptiesInboxes | Guardia.cs:30-38 | after processing both inboxes are empty |
| Guard.ProcessAnswers | Guardia.cs:18-38 | a drone message gets the reply its text calls for and a camera message always the investigation notice; an empty inbox leaves its outbox alone |
| Guard.ChannelsIndependent | Guardia.cs:16-40 | neither channel's result depends on the other channel's fields |
| Guard.ProcessIdempotent | Guardia.cs:18-38 | a second `ProcessMessages` with no new input changes nothing |
| Guard.GuardAgent.constructor | Guardia.cs:5-9 | all four message fields start empty |
| Guard.GuardAgent.ProcessMessages | Guardia.cs:16-40 | computes `ProcessStep` |
| Camera.PatrolStep | Camara.cs:30-33 | the outbox gets the alert exactly when the draw from [0, 100) is 0; the inbox is not touched |
| Camera.ProcessStep | Camara.cs:36-43 | the inbox is emptied and the outbox is not touched |
| Camera.UpdateStep | Camara.cs:18-22 | after a frame the inbox is empty and the outbox holds what it held or the alert |
| Camera.OutboxNeverCleared | Camara.cs:24-43 | the outbox is never cleared, and a repeated alert overwrites the slot instead of queueing |
| Camera.AlertIffZeroDraw | Camara.cs:30-33 | from an outbox without the alert, a frame raises it exactly when the draw is 0 |
| Camera.CameraAgent.constructor | Camara.cs:8-9 | both message fields start empty |
| Camera.CameraAgent.Update | Camara.cs:18-22 | a frame patrols, then processes the inbox |
| Camera.CameraAgent.PatrolArea | Camara.cs:24-34 | computes `PatrolStep` |
| Camera.CameraAgent.ProcessMessage | Camara.cs:36-43 | computes `ProcessStep` |
| Vision.FromYoloClass | unity-warehouse-vision.py:18-31 | a type is returned exactly for the names in the table |
| Vision.FromYoloClassListed | unity-warehouse-vision.py:20-30 | each of the nine names maps to the type it stands for, and only those names map to it |
| Vision.FromYoloClassUnlisted | unity-warehouse-vision.py:31 | every name outside the nine maps to `None` |
| Vision.DetectionOf | unity-warehouse-vision.py:77-82 | the detection kept has the box's confidence and class name, and the type the table gives that name |
| Vision.FirstBestUnique | unity-warehouse-vision.py:76-83 | at most one box is the first of the most confident qualifying boxes |
| Vision.SelectBestBox | unity-warehouse-vision.py:70-83 | the box kept is the first of the most confident boxes above 0.6 whose class maps to a type; there is none exactly when no box qualifies |
| Vision.UpdateRobotStep | unity-warehouse-vision.py:115-122 | the robot's entry is replaced by a fresh record with no detection and confidence 0.0; other entries are untouched |
| Vision.CameraFrameStep | unity-warehouse-vision.py:65-97 | a frame registers no robot, sends at most one message after those already sent, and changes nothing when it raises |
| Vision.FrameWithoutDetection | unity-warehouse-vision.py:85-97 | a frame without a qualifying box returns `None`, sends nothing and changes no record |
| Vision.FrameWithDetection | unity-warehouse-vision.py:85-113 | a detection is recorded on a registered robot alone, sent with its updated record and returned; for an unregistered robot the send raises `KeyError` and nothing changes |
| Vision.HandleStep | unity-warehouse-vision.py:135-149 | one message never forgets a robot and only appends to what was sent |
| Vision.Drain | unity-warehouse-vision.py:126-152 | a drain that raised nothing has emptied the queue |
| Vision.DrainStopsAtFirstError | unity-warehouse-vision.py:126-152 | a drain that raised stopped at the first message that raised: every message before it was handled without an exception, and the error is that message's own |
| Vision.DrainLeavesSuffix | unity-warehouse-vision.py:124-152 | the drain ends with the queue empty unless a message raised, and what is left is a suffix of the queue |
| Vision.DrainKeepsRegistry | unity-warehouse-vision.py:124-152 | a drain never forgets a robot, only appends to what was sent, and only sends for registered robots |
| Vision.DrainUpdatesOnly | unity-warehouse-vision.py:135-142 | a queue of robot updates and ignored types is drained completely, sends nothing, and registers exactly the updated robots |
| Vision.WarehouseVisionSystem.constructor | unity-warehouse-vision.py:58-59 | the registry starts empty and nothing has been sent |
| Vision.WarehouseVisionSystem.UpdateRobotState | unity-warehouse-vision.py:115-122 | computes `UpdateRobotStep` on the registry and sends nothing |
| Vision.WarehouseVisionSystem.SendDetectionToUnity | unity-warehouse-vision.py:99-113 | appends one detection message with the robot's record, or raises `KeyError` for an unregistered robot and sends nothing |
| Vision.WarehouseVisionSystem.ProcessCameraFrame | unity-warehouse-vision.py:65-97 | computes `CameraFrameStep` |
| Vision.WarehouseVisionSystem.HandleUnityMessages | unity-warehouse-vision.py:124-152 | the draining loop computes `Drain`: the final registry, what was sent, what stays queued and the exception that ended it |

## Left out

- Steering (`main.py` forces, separation, clamping, heading, movement counter) is replaced by an oracle `Step`. It gives a robot's new position and whether it reached its target. The Unity `MoveTowards`, `Slerp`, `LookRotation` and search oscillation are replaced by an `arrived` input.
- Distances are compared as exact squared real distances. The source compares float Euclidean norms, so float rounding ties are not modelled.
- Randomness is a parameter:
  - the robots' start points and the item positions in the warehouse;
  - the drones' speeds;
  - the camera's draw from [0, 100).
- Coroutine waits (`WaitForSeconds`) are explicit phases. They are ended by `DropWaitElapsed` and `LandingWaitElapsed`; elapsed time is not modelled.
- Scene object lifecycle is not modelled: `Instantiate`, `Rigidbody`, `Destroy`, trigger callbacks. `PickUpItem` is called with the touched object's id, and dropped items are counted in `itemsDropped`.
- Logging (`Debug.Log`, `print`), timestamps (`time.time`, the detection message's timestamp) and the pygame interface of `main.py` are not modelled.
- The `Stacking` robot state is declared but never entered by the source. The model keeps it, and its tick changes nothing.
- Warehouse.Remove: where Python's `list.remove` raises `ValueError` for an absent item, the model leaves the list unchanged. The invariant rules that case out for every deposit.
- WaypointRoute.PickUp: `itemsCollected` is an unbounded `nat`. C#'s 32-bit wrap-around after 2^31 pick-ups is not modelled.
- Drone: the waypoint list is reduced to its count, because the drone only indexes it. A null waypoint, which would raise in Unity, is not modelled.
- Vision: YOLO inference, ZeroMQ, JSON and cv2 frame decoding are not modelled.
  - A frame is given as the detector's boxes in the order the server visits them.
  - The socket is a queue of decoded messages. `Malformed` stands for one that lacks a field the handler reads, or whose frame does not decode. Every `CAMERA_FRAME` the Unity client sends is of that kind, since the server looks for `frame` at the top level.
  - What is sent is appended to `sent`.
  - The message that raised is consumed. The exception's printout is returned as an error value.
- Vision: the wire formats of the Unity client and the Python server do not agree on field names, so no round trip between them is stated. unity-robot-vision.cs and serversocket.py are not part of this model.
- Message delivery between the drone, the guard and the cameras is not modelled. The source copies nothing between their fields; some other scene code must do it.
