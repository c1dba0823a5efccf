/**
 * The warehouse vision server (`WarehouseVisionSystem`): it keeps a registry of robot
 * states fed by the simulator, picks the most confident usable detection out of each
 * camera frame, records it against the robot and sends it back.
 *
 * The detector's output for a frame is given as the sequence of its boxes, in the
 * order the server iterates them, each with its confidence and class name. The socket
 * is a queue of already decoded messages; what is sent is appended to `sent`.
 */
module Vision {
  import opened Wrappers
  import opened Ontology

  /** A box is usable only above this confidence. */
  const ConfidenceThreshold: real := 0.6

  /** The detector class names the server understands, and the item type of each. */
  const YoloMapping: map<string, ItemType> := map[
    "laptop" := Electronics, "cell phone" := Electronics, "keyboard" := Electronics,
    "clothes" := Clothing, "person" := Clothing,
    "bottle" := Food, "cup" := Food,
    "scissors" := Tools, "remote" := Tools]

  /** The class names that stand for each item type. */
  function YoloClassesOf(t: ItemType): set<string>
  {
    match t
    case Electronics => {"laptop", "cell phone", "keyboard"}
    case Clothing => {"clothes", "person"}
    case Food => {"bottle", "cup"}
    case Tools => {"scissors", "remote"}
  }

  /** `ItemType.from_yolo_class`: the mapped type, or `None` for every other name. */
  function FromYoloClass(name: string): (t: Option<ItemType>)
    ensures t.Some? <==> name in YoloMapping
  {
    if name in YoloMapping then Some(YoloMapping[name]) else None
  }

  /** The table maps exactly the nine listed names, each to the type it stands for. */
  lemma FromYoloClassListed(name: string, t: ItemType)
    ensures FromYoloClass(name) == Some(t) <==> name in YoloClassesOf(t)
  {
  }

  /** A name outside the nine maps to nothing. */
  lemma FromYoloClassUnlisted(name: string)
    ensures FromYoloClass(name).None? <==> forall t: ItemType :: name !in YoloClassesOf(t)
  {
    if FromYoloClass(name).Some? {
      FromYoloClassListed(name, FromYoloClass(name).value);
    } else {
      forall t: ItemType
        ensures name !in YoloClassesOf(t)
      {
        FromYoloClassListed(name, t);
      }
    }
  }

  /** One detector box: its confidence and the name of its class. */
  datatype Box = Box(confidence: real, className: string)

  /** What `process_camera_frame` keeps of the best box. */
  datatype Detection = Detection(itemType: ItemType, confidence: real, className: string)

  /** A box the server may report: confident enough, of a class it understands. */
  predicate Qualifies(b: Box)
  {
    b.confidence > ConfidenceThreshold && FromYoloClass(b.className).Some?
  }

  function DetectionOf(b: Box): (d: Detection)
    requires Qualifies(b)
    ensures d.confidence == b.confidence && d.className == b.className
    ensures FromYoloClass(b.className) == Some(d.itemType)
  {
    Detection(FromYoloClass(b.className).value, b.confidence, b.className)
  }

  /**
   * Among the first `n` boxes, box `k` qualifies, no qualifying box is more confident,
   * and every qualifying box before it is strictly less confident.
   */
  ghost predicate IsFirstBestUpTo(boxes: seq<Box>, n: nat, k: int)
    requires n <= |boxes|
  {
    && 0 <= k < n && Qualifies(boxes[k])
    && (forall j :: 0 <= j < n && Qualifies(boxes[j]) ==> boxes[j].confidence <= boxes[k].confidence)
    && (forall j :: 0 <= j < k && Qualifies(boxes[j]) ==> boxes[j].confidence < boxes[k].confidence)
  }

  ghost predicate IsFirstBest(boxes: seq<Box>, k: int)
  {
    IsFirstBestUpTo(boxes, |boxes|, k)
  }

  /** At most one box is the first of the most confident qualifying boxes. */
  lemma FirstBestUnique(boxes: seq<Box>, k1: int, k2: int)
    requires IsFirstBest(boxes, k1) && IsFirstBest(boxes, k2)
    ensures k1 == k2
  {
  }

  /** The detection a frame yields: that of its first most confident qualifying box, if any box qualifies. */
  ghost function BestOf(boxes: seq<Box>): Option<Detection>
  {
    if exists k :: IsFirstBest(boxes, k) then
      var k :| IsFirstBest(boxes, k);
      Some(DetectionOf(boxes[k]))
    else None
  }

  /**
   * The selection loop of `process_camera_frame`: the box kept is the first of the
   * most confident qualifying boxes, and there is none exactly when no box qualifies.
   */
  method SelectBestBox(boxes: seq<Box>) returns (best: Option<Detection>)
    ensures best == BestOf(boxes)
    ensures best.None? <==> forall j :: 0 <= j < |boxes| ==> !Qualifies(boxes[j])
    ensures best.Some? ==>
      best.value.confidence > ConfidenceThreshold && FromYoloClass(best.value.className) == Some(best.value.itemType)
  {
    best := None;
    var maxConfidence: real := 0.0;
    ghost var k: int := -1;
    var i := 0;
    while i < |boxes|
      invariant 0 <= i <= |boxes|
      invariant best.None? <==> forall j :: 0 <= j < i ==> !Qualifies(boxes[j])
      invariant best.None? ==> maxConfidence == 0.0
      invariant best.Some? ==>
        IsFirstBestUpTo(boxes, i, k) && best.value == DetectionOf(boxes[k]) && maxConfidence == boxes[k].confidence
    {
      var box := boxes[i];
      var confidence := box.confidence;
      if confidence > maxConfidence && confidence > ConfidenceThreshold {
        var itemType := FromYoloClass(box.className);
        if itemType.Some? {
          best := Some(Detection(itemType.value, confidence, box.className));
          maxConfidence := confidence;
          k := i;
        }
      }
      i := i + 1;
    }
    if best.Some? {
      assert IsFirstBest(boxes, k);
      ghost var k' :| IsFirstBest(boxes, k') && BestOf(boxes) == Some(DetectionOf(boxes[k']));
      FirstBestUnique(boxes, k, k');
    } else {
      assert forall k' :: !IsFirstBest(boxes, k');
    }
  }

  /** The server's record of one robot (`RobotState`). */
  datatype RobotRecord = RobotRecord(
    position: (real, real, real),
    rotation: real,
    carryingItem: bool,
    detectedItem: Option<string>,
    detectionConfidence: real)

  /** A `DETECTION` message sent back to the simulator; its timestamp is not modelled. */
  datatype DetectionMessage = DetectionMessage(robotId: int, state: RobotRecord, detectedItem: string, confidence: real)

  /** A message from the simulator, decoded. `Malformed` lacks a field the handler reads, or carries a frame that does not decode. */
  datatype UnityMessage =
    | RobotUpdate(robotId: int, position: (real, real, real), rotation: real, carryingItem: bool)
    | CameraFrame(robotId: int, boxes: seq<Box>)
    | OtherType(messageType: string)
    | Malformed

  /** The exceptions that end a drain of the socket. */
  datatype VisionError = KeyError(robotId: int) | BadMessage

  /** The registry and the outgoing messages, as a value. */
  datatype Server = Server(robots: map<int, RobotRecord>, sent: seq<DetectionMessage>)

  /** `update_robot_state`: the robot's entry is replaced by a fresh record with no detection; the others stay. */
  function UpdateRobotStep(robots: map<int, RobotRecord>, robotId: int, position: (real, real, real),
                           rotation: real, carryingItem: bool): (robots': map<int, RobotRecord>)
    ensures robots'.Keys == robots.Keys + {robotId}
    ensures robots'[robotId].detectedItem.None? && robots'[robotId].detectionConfidence == 0.0
    ensures robots'[robotId].position == position && robots'[robotId].rotation == rotation
      && robots'[robotId].carryingItem == carryingItem
    ensures forall id :: id in robots && id != robotId ==> robots'[id] == robots[id]
  {
    robots[robotId := RobotRecord(position, rotation, carryingItem, None, 0.0)]
  }

  /** `process_camera_frame` for a frame with the given boxes: its result and the server after it. */
  ghost function CameraFrameStep(s: Server, robotId: int, boxes: seq<Box>): (res: (Result<Option<ItemType>, VisionError>, Server))
    ensures res.1.robots.Keys == s.robots.Keys
    ensures |s.sent| <= |res.1.sent| <= |s.sent| + 1 && res.1.sent[..|s.sent|] == s.sent
    ensures res.0.Err? ==> res.1 == s
  {
    match BestOf(boxes)
    case None => (Ok(None), s)
    case Some(d) =>
      if robotId in s.robots then
        var record := s.robots[robotId].(detectedItem := Some(d.className), detectionConfidence := d.confidence);
        (Ok(Some(d.itemType)), Server(s.robots[robotId := record],
                                      s.sent + [DetectionMessage(robotId, record, d.className, d.confidence)]))
      else (Err(KeyError(robotId)), s)
  }

  /** A frame with no qualifying box yields nothing, sends nothing and changes no record. */
  lemma FrameWithoutDetection(s: Server, robotId: int, boxes: seq<Box>)
    requires forall j :: 0 <= j < |boxes| ==> !Qualifies(boxes[j])
    ensures CameraFrameStep(s, robotId, boxes) == (Ok(None), s)
  {
    assert forall k :: !IsFirstBest(boxes, k);
  }

  /**
   * A frame with a detection for a registered robot records it in that robot's entry
   * alone, sends it with the updated record, and returns the detected type; for an
   * unregistered robot the send fails with a `KeyError` and nothing changes.
   */
  lemma FrameWithDetection(s: Server, robotId: int, boxes: seq<Box>, k: nat)
    requires IsFirstBest(boxes, k)
    ensures var (r, s') := CameraFrameStep(s, robotId, boxes);
      var b := boxes[k];
      && (robotId in s.robots ==>
            && r == Ok(FromYoloClass(b.className))
            && s'.robots.Keys == s.robots.Keys
            && s'.robots[robotId].detectedItem == Some(b.className)
            && s'.robots[robotId].detectionConfidence == b.confidence
            && (forall id :: id in s.robots && id != robotId ==> s'.robots[id] == s.robots[id])
            && s'.sent == s.sent + [DetectionMessage(robotId, s'.robots[robotId], b.className, b.confidence)])
      && (robotId !in s.robots ==> r == Err(KeyError(robotId)) && s' == s)
  {
    var k' :| IsFirstBest(boxes, k') && BestOf(boxes) == Some(DetectionOf(boxes[k']));
    FirstBestUnique(boxes, k, k');
  }

  /** One message of the drain loop: the server after it, and the exception it raised if any. */
  ghost function HandleStep(s: Server, m: UnityMessage): (res: (Server, Option<VisionError>))
    ensures s.robots.Keys <= res.0.robots.Keys
    ensures |s.sent| <= |res.0.sent| && res.0.sent[..|s.sent|] == s.sent
  {
    match m
    case RobotUpdate(id, position, rotation, carrying) =>
      (s.(robots := UpdateRobotStep(s.robots, id, position, rotation, carrying)), None)
    case CameraFrame(id, boxes) =>
      var (r, s') := CameraFrameStep(s, id, boxes);
      if r.Err? then (s', Some(r.error)) else (s', None)
    case OtherType(_) => (s, None)
    case Malformed => (s, Some(BadMessage))
  }

  /**
   * `handle_unity_messages`: messages are taken off the queue in order until it is
   * empty or one raises; the one that raised is consumed, the rest stay queued.
   */
  ghost function Drain(s: Server, inbox: seq<UnityMessage>): (res: (Server, seq<UnityMessage>, Option<VisionError>))
    ensures res.2.None? ==> res.1 == []
    decreases |inbox|
  {
    if inbox == [] then (s, [], None)
    else
      var (s', err) := HandleStep(s, inbox[0]);
      if err.Some? then (s', inbox[1..], err) else Drain(s', inbox[1..])
  }

  /** A drain ends with the queue empty unless a message raised, and leaves what remains in order. */
  lemma {:induction false} DrainLeavesSuffix(s: Server, inbox: seq<UnityMessage>)
    ensures var (_, rest, err) := Drain(s, inbox);
      && |rest| <= |inbox| && rest == inbox[|inbox| - |rest|..]
      && (err.None? ==> rest == [])
      && (err.Some? ==> |rest| < |inbox|)
    decreases |inbox|
  {
    if inbox != [] {
      var (s', err) := HandleStep(s, inbox[0]);
      if err.None? {
        DrainLeavesSuffix(s', inbox[1..]);
        var rest := Drain(s', inbox[1..]).1;
        assert inbox[1..][|inbox[1..]| - |rest|..] == inbox[|inbox| - |rest|..];
      }
    }
  }

  /**
   * A drain that raised stopped at the first message that raised: the messages before
   * it were all handled without an exception, and the error returned is that message's own.
   */
  lemma {:induction false} DrainStopsAtFirstError(s: Server, inbox: seq<UnityMessage>)
    ensures var (s', rest, err) := Drain(s, inbox);
      err.Some? ==>
        var n := |inbox| - |rest| - 1;
        && 0 <= n < |inbox|
        && Drain(s, inbox[..n]).1 == [] && Drain(s, inbox[..n]).2.None?
        && HandleStep(Drain(s, inbox[..n]).0, inbox[n]) == (s', err)
    decreases |inbox|
  {
    if inbox != [] {
      var (s1, e1) := HandleStep(s, inbox[0]);
      if e1.None? {
        DrainStopsAtFirstError(s1, inbox[1..]);
        var (s', rest, err) := Drain(s1, inbox[1..]);
        DrainLeavesSuffix(s1, inbox[1..]);
        if err.Some? {
          var n := |inbox| - |rest| - 1;
          assert inbox[..n][0] == inbox[0];
          assert inbox[..n][1..] == inbox[1..][..n - 1];
          assert inbox[n] == inbox[1..][n - 1];
        }
      } else {
        assert inbox[..0] == [];
      }
    }
  }

  /**
   * A drain never forgets a robot, and every detection it sends is for a robot that
   * is registered at the end.
   */
  lemma {:induction false} DrainKeepsRegistry(s: Server, inbox: seq<UnityMessage>)
    requires forall j :: 0 <= j < |s.sent| ==> s.sent[j].robotId in s.robots
    ensures var (s', _, _) := Drain(s, inbox);
      && s.robots.Keys <= s'.robots.Keys
      && |s.sent| <= |s'.sent| && s'.sent[..|s.sent|] == s.sent
      && forall j :: 0 <= j < |s'.sent| ==> s'.sent[j].robotId in s'.robots
    decreases |inbox|
  {
    if inbox != [] {
      var (s', err) := HandleStep(s, inbox[0]);
      if inbox[0].CameraFrame? && BestOf(inbox[0].boxes).Some? && inbox[0].robotId in s.robots {
        assert s'.sent == s.sent + [s'.sent[|s.sent|]];
      }
      if err.None? {
        DrainKeepsRegistry(s', inbox[1..]);
      }
    }
  }

  /** With only robot updates and ignored types queued, a drain empties the queue and sends nothing. */
  lemma {:induction false} DrainUpdatesOnly(s: Server, inbox: seq<UnityMessage>)
    requires forall j :: 0 <= j < |inbox| ==> inbox[j].RobotUpdate? || inbox[j].OtherType?
    ensures var (s', rest, err) := Drain(s, inbox);
      && rest == [] && err.None? && s'.sent == s.sent
      && s'.robots.Keys == s.robots.Keys + set j | 0 <= j < |inbox| && inbox[j].RobotUpdate? :: inbox[j].robotId
    decreases |inbox|
  {
    if inbox != [] {
      var s' := HandleStep(s, inbox[0]).0;
      DrainUpdatesOnly(s', inbox[1..]);
      var ids := set j | 0 <= j < |inbox| && inbox[j].RobotUpdate? :: inbox[j].robotId;
      var ids' := set j | 0 <= j < |inbox[1..]| && inbox[1..][j].RobotUpdate? :: inbox[1..][j].robotId;
      assert ids == ids' + (if inbox[0].RobotUpdate? then {inbox[0].robotId} else {}) by {
        forall id | id in ids
          ensures id in ids' + (if inbox[0].RobotUpdate? then {inbox[0].robotId} else {})
        {
          var j :| 0 <= j < |inbox| && inbox[j].RobotUpdate? && inbox[j].robotId == id;
          if j > 0 {
            assert inbox[1..][j - 1] == inbox[j];
          }
        }
        forall id | id in ids'
          ensures id in ids
        {
          var j :| 0 <= j < |inbox[1..]| && inbox[1..][j].RobotUpdate? && inbox[1..][j].robotId == id;
          assert inbox[j + 1] == inbox[1..][j];
        }
      }
    }
  }

  /** The vision server, with the registry, the socket's incoming queue and what it has sent. */
  class WarehouseVisionSystem {
    var robots: map<int, RobotRecord>
    var inbox: seq<UnityMessage>
    var sent: seq<DetectionMessage>

    function Model(): Server
      reads this
    {
      Server(robots, sent)
    }

    constructor (inbox: seq<UnityMessage>)
      ensures robots == map[] && sent == [] && this.inbox == inbox
    {
      robots := map[];
      sent := [];
      this.inbox := inbox;
    }

    method UpdateRobotState(robotId: int, position: (real, real, real), rotation: real, carryingItem: bool)
      modifies this
      ensures robots == UpdateRobotStep(old(robots), robotId, position, rotation, carryingItem)
      ensures sent == old(sent) && inbox == old(inbox)
    {
      robots := robots[robotId := RobotRecord(position, rotation, carryingItem, None, 0.0)];
    }

    /** `send_detection_to_unity`; it raises `KeyError` for a robot the registry does not hold. */
    method SendDetectionToUnity(robotId: int, itemName: string, confidence: real) returns (err: Option<VisionError>)
      modifies this
      ensures robotId in robots ==>
        err.None? && sent == old(sent) + [DetectionMessage(robotId, robots[robotId], itemName, confidence)]
      ensures robotId !in robots ==> err == Some(KeyError(robotId)) && sent == old(sent)
      ensures robots == old(robots) && inbox == old(inbox)
    {
      if robotId !in robots {
        return Some(KeyError(robotId));
      }
      sent := sent + [DetectionMessage(robotId, robots[robotId], itemName, confidence)];
      err := None;
    }

    /** `process_camera_frame`, for a frame whose detector output is `boxes`. */
    method ProcessCameraFrame(robotId: int, boxes: seq<Box>) returns (r: Result<Option<ItemType>, VisionError>)
      modifies this
      ensures (r, Model()) == CameraFrameStep(old(Model()), robotId, boxes)
      ensures inbox == old(inbox)
    {
      var best := SelectBestBox(boxes);
      if best.None? {
        return Ok(None);
      }
      var detection := best.value;
      if robotId in robots {
        robots := robots[robotId := robots[robotId].(detectedItem := Some(detection.className),
                                                     detectionConfidence := detection.confidence)];
      }
      var err := SendDetectionToUnity(robotId, detection.className, detection.confidence);
      if err.Some? {
        return Err(err.value);
      }
      r := Ok(Some(detection.itemType));
    }

    /** `handle_unity_messages`: drains the queue; the exception that ended it, if any, is returned. */
    method HandleUnityMessages() returns (err: Option<VisionError>)
      modifies this
      ensures (Model(), inbox, err) == Drain(old(Model()), old(inbox))
    {
      err := None;
      while inbox != []
        invariant err.None?
        invariant Drain(Model(), inbox) == Drain(old(Model()), old(inbox))
        decreases |inbox|
      {
        var message := inbox[0];
        inbox := inbox[1..];
        match message {
          case RobotUpdate(id, position, rotation, carrying) =>
            UpdateRobotState(id, position, rotation, carrying);
          case CameraFrame(id, boxes) =>
            var r := ProcessCameraFrame(id, boxes);
            if r.Err? {
              return Some(r.error);
            }
          case OtherType(_) =>
          case Malformed =>
            return Some(BadMessage);
        }
      }
    }
  }
}
