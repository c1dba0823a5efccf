/**
 * The guard of `Guardia.cs`: two inboxes, one from the drone and one from the
 * cameras, each answered through its own outbox. A message is consumed when read;
 * the reply to the drone depends only on whether its text mentions the landing zone.
 */
module Guard {
  import opened Text
  import Drone

  const ConfirmedLanding: string := "Guard: Confirmed landing."
  const ContinuePatrol: string := "Guard: Continue patrol."
  const InvestigatingAlert: string := "Guard: Investigating camera alert."
  /** The phrase the guard looks for in the drone's message. */
  const LandingZone: string := "landing zone"

  /** The guard's answer to a message from the drone. */
  function ReplyToDrone(message: string): (reply: string)
    ensures reply == ConfirmedLanding || reply == ContinuePatrol
    ensures reply == ConfirmedLanding <==> Contains(message, LandingZone)
  {
    if Contains(message, LandingZone) then ConfirmedLanding else ContinuePatrol
  }

  /** The guard's four message fields. */
  datatype GuardState = GuardState(droneMessage: string, cameraMessage: string, messageToDrone: string, messageToCamera: string)

  /** `ProcessMessages`: each non-empty inbox is answered and emptied; an empty one is left as it is. */
  function ProcessStep(g: GuardState): (g': GuardState)
    ensures g'.droneMessage == "" && g'.cameraMessage == ""
  {
    var g1 :=
      if g.droneMessage != "" then g.(messageToDrone := ReplyToDrone(g.droneMessage), droneMessage := "")
      else g;
    if g1.cameraMessage != "" then g1.(messageToCamera := InvestigatingAlert, cameraMessage := "")
    else g1
  }

  /** The drone's landing notice is answered with the landing confirmation. */
  lemma LandingNoticeConfirmed()
    ensures ReplyToDrone(Drone.LandingMessage) == ConfirmedLanding
  {
    assert Drone.LandingMessage[18..18 + |LandingZone|] == LandingZone;
    ContainsAt(Drone.LandingMessage, LandingZone, 18);
  }

  /** Every patrol status report is answered with "continue patrol": it never mentions the landing zone. */
  lemma PatrolStatusContinues(index: nat)
    ensures ReplyToDrone(Drone.PatrolStatus(index)) == ContinuePatrol
  {
    var prefix := "DroneStatus: Patrolling at waypoint ";
    var digits := NatToString(index);
    var m := Drone.PatrolStatus(index);
    assert m == prefix + digits;
    assert 'z' !in prefix;
    forall k | 0 <= k < |m|
      ensures m[k] != 'z'
    {
      if k >= |prefix| {
        assert m[k] == digits[k - |prefix|];
      }
    }
    assert LandingZone[8] == 'z';
    MissingCharNotContained(m, LandingZone, 'z');
  }

  /** After `ProcessMessages` both inboxes are empty. */
  lemma ProcessEmptiesInboxes(g: GuardState)
    ensures ProcessStep(g).droneMessage == "" && ProcessStep(g).cameraMessage == ""
  {
  }

  /**
   * A message from the drone is answered by the reply its text calls for, and one from
   * a camera always by the investigation notice; an empty inbox leaves its outbox alone.
   */
  lemma ProcessAnswers(g: GuardState)
    ensures g.droneMessage != "" ==> ProcessStep(g).messageToDrone == ReplyToDrone(g.droneMessage)
    ensures g.droneMessage == "" ==> ProcessStep(g).messageToDrone == g.messageToDrone
    ensures g.cameraMessage != "" ==> ProcessStep(g).messageToCamera == InvestigatingAlert
    ensures g.cameraMessage == "" ==> ProcessStep(g).messageToCamera == g.messageToCamera
  {
  }

  /** The two channels are independent: neither's result depends on the other's fields. */
  lemma ChannelsIndependent(g: GuardState, h: GuardState)
    ensures g.droneMessage == h.droneMessage && g.messageToDrone == h.messageToDrone ==>
      ProcessStep(g).droneMessage == ProcessStep(h).droneMessage
      && ProcessStep(g).messageToDrone == ProcessStep(h).messageToDrone
    ensures g.cameraMessage == h.cameraMessage && g.messageToCamera == h.messageToCamera ==>
      ProcessStep(g).cameraMessage == ProcessStep(h).cameraMessage
      && ProcessStep(g).messageToCamera == ProcessStep(h).messageToCamera
  {
  }

  /** With no new message in between, a second `ProcessMessages` changes nothing. */
  lemma ProcessIdempotent(g: GuardState)
    ensures ProcessStep(ProcessStep(g)) == ProcessStep(g)
  {
  }

  /** The guard of `Guardia.cs`. */
  class GuardAgent {
    var droneMessage: string
    var cameraMessage: string
    var messageToDrone: string
    var messageToCamera: string

    function Model(): GuardState
      reads this
    {
      GuardState(droneMessage, cameraMessage, messageToDrone, messageToCamera)
    }

    constructor ()
      ensures Model() == GuardState("", "", "", "")
    {
      droneMessage, cameraMessage, messageToDrone, messageToCamera := "", "", "", "";
    }

    /** `Update`, which only processes the inboxes. */
    method ProcessMessages()
      modifies this
      ensures Model() == ProcessStep(old(Model()))
    {
      if droneMessage != "" {
        if Contains(droneMessage, LandingZone) {
          messageToDrone := ConfirmedLanding;
        } else {
          messageToDrone := ContinuePatrol;
        }
        droneMessage := "";
      }
      if cameraMessage != "" {
        messageToCamera := InvestigatingAlert;
        cameraMessage := "";
      }
    }
  }
}
