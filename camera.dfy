/**
 * A security camera of `Camara.cs`: each frame it may raise an alert in its outbox
 * (one chance in a hundred) and consumes any reply from the guard in its inbox. The
 * sweep of its rotation is not modelled; the random draw is an input.
 */
module Camera {

  const CameraAlert: string := "CameraAlert: Suspicious activity detected."

  /** The camera's two message fields. */
  datatype CameraState = CameraState(messageToSend: string, messageReceived: string)

  /** The alert branch of `PatrolArea`, given the integer drawn from [0, 100). */
  function PatrolStep(c: CameraState, draw: int): (c': CameraState)
    requires 0 <= draw < 100
    ensures c'.messageReceived == c.messageReceived
    ensures c'.messageToSend == (if draw == 0 then CameraAlert else c.messageToSend)
  {
    if draw < 1 then c.(messageToSend := CameraAlert) else c
  }

  /** `ProcessMessage`: the inbox is emptied; the outbox is not touched. */
  function ProcessStep(c: CameraState): (c': CameraState)
    ensures c'.messageReceived == "" && c'.messageToSend == c.messageToSend
  {
    if c.messageReceived != "" then c.(messageReceived := "") else c
  }

  /** One call of `Update`: patrol, then process the inbox. */
  function UpdateStep(c: CameraState, draw: int): (c': CameraState)
    requires 0 <= draw < 100
    ensures c'.messageReceived == ""
    ensures c'.messageToSend == c.messageToSend || c'.messageToSend == CameraAlert
  {
    ProcessStep(PatrolStep(c, draw))
  }

  /**
   * The outbox is never cleared: it keeps what it held or, on the one draw in a
   * hundred, holds the alert, overwritten rather than queued when one is already there.
   */
  lemma OutboxNeverCleared(c: CameraState, draw: int)
    requires 0 <= draw < 100
    ensures var c' := UpdateStep(c, draw);
      && (c'.messageToSend == c.messageToSend || c'.messageToSend == CameraAlert)
      && (c.messageToSend != "" ==> c'.messageToSend != "")
      && (c.messageToSend == CameraAlert ==> c'.messageToSend == CameraAlert)
  {
  }

  /** An alert is raised in a frame exactly when the draw is 0. */
  lemma AlertIffZeroDraw(c: CameraState, draw: int)
    requires 0 <= draw < 100 && c.messageToSend != CameraAlert
    ensures UpdateStep(c, draw).messageToSend == CameraAlert <==> draw == 0
  {
  }

  /** The camera of `Camara.cs`. */
  class CameraAgent {
    var messageToSend: string
    var messageReceived: string

    function Model(): CameraState
      reads this
    {
      CameraState(messageToSend, messageReceived)
    }

    constructor ()
      ensures Model() == CameraState("", "")
    {
      messageToSend, messageReceived := "", "";
    }

    /** `Update`, given this frame's draw of `Random.Range(0, 100)`. */
    method Update(draw: int)
      requires 0 <= draw < 100
      modifies this
      ensures Model() == UpdateStep(old(Model()), draw)
    {
      PatrolArea(draw);
      ProcessMessage();
    }

    method PatrolArea(draw: int)
      requires 0 <= draw < 100
      modifies this
      ensures Model() == PatrolStep(old(Model()), draw)
    {
      if draw < 1 {
        messageToSend := CameraAlert;
      }
    }

    method ProcessMessage()
      modifies this
      ensures Model() == ProcessStep(old(Model()))
    {
      if messageReceived != "" {
        messageReceived := "";
      }
    }
  }
}
