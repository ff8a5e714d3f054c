/**
 * The frame records decoded from the pose stream and `PoseReceiver`, the
 * latest-frame cache fed by a receive loop through a FIFO queue.
 */
module PoseReceiving {
  import opened Wrappers

  /** One pre-computed bone angle of a person (`BoneRotation`). */
  datatype BoneRotation = BoneRotation(name: string, z: real)

  /** One tracked person (`PersonData`); `rotations` is `None` where the C# array is null. */
  datatype PersonData = PersonData(personId: int, centerX: real, rotations: Option<seq<BoneRotation>>)

  /** One decoded frame (`PoseData`); `people` is `None` where the C# array is null. */
  datatype PoseData = PoseData(timestamp: real, frameId: int, peopleCount: int, people: Option<seq<PersonData>>)

  /**
   * What one iteration of the receive loop gets: a datagram that `JsonUtility`
   * decoded to a frame or to null, or a receive or parse error that was caught.
   */
  datatype Message = Decoded(frame: Option<PoseData>) | Failed

  /** The enqueue filter of the receive loop: a frame and its `people` array are both non-null. */
  predicate Admitted(frame: Option<PoseData>)
  {
    frame.Some? && frame.value.people.Some?
  }

  /** The frames a sequence of messages adds to the queue, in arrival order. */
  function Accepted(inbox: seq<Message>): (r: seq<PoseData>)
    ensures |r| <= |inbox|
    ensures forall f :: f in r ==> f.people.Some?
    ensures forall j :: 0 <= j < |inbox| && inbox[j].Decoded? && Admitted(inbox[j].frame) ==> inbox[j].frame.value in r
    ensures forall k :: 0 <= k < |r| ==> Decoded(Some(r[k])) in inbox
  {
    if inbox == [] then []
    else
      var init, m := inbox[..|inbox| - 1], inbox[|inbox| - 1];
      assert inbox == init + [m];
      Accepted(init) + (if m.Decoded? && Admitted(m.frame) then [m.frame.value] else [])
  }

  /** Taking one more message adds exactly what that message alone contributes. */
  lemma AcceptedStep(inbox: seq<Message>, i: nat)
    requires i < |inbox|
    ensures Accepted(inbox[..i + 1]) == Accepted(inbox[..i]) + Accepted([inbox[i]])
  {
    assert inbox[..i + 1][..i] == inbox[..i];
    assert [inbox[i]][..0] == [];
  }

  /**
   * The frame left in `latestFrame` after dequeuing `queue` front to back,
   * each dequeued frame overwriting the one before.
   */
  function Drained(latest: Option<PoseData>, queue: seq<PoseData>): Option<PoseData>
    decreases |queue|
  {
    if queue == [] then latest else Drained(Some(queue[0]), queue[1..])
  }

  /** Last write wins: draining a non-empty queue keeps exactly its last frame. */
  lemma {:induction false} DrainedIsLast(latest: Option<PoseData>, queue: seq<PoseData>)
    ensures Drained(latest, queue) == if queue == [] then latest else Some(queue[|queue| - 1])
    decreases |queue|
  {
    if queue != [] {
      DrainedIsLast(Some(queue[0]), queue[1..]);
    }
  }

  /** Draining in two pieces is draining the whole queue: the frames are taken in FIFO order. */
  lemma {:induction false} DrainedAppend(latest: Option<PoseData>, front: seq<PoseData>, back: seq<PoseData>)
    ensures Drained(latest, front + back) == Drained(Drained(latest, front), back)
    decreases |front|
  {
    if front == [] {
      assert front + back == back;
    } else {
      assert (front + back)[1..] == front[1..] + back;
      DrainedAppend(Some(front[0]), front[1..], back);
    }
  }

  /** `GetPerson` on a given frame: null without a frame or people, or with an index out of range. */
  function PersonAt(frame: Option<PoseData>, index: int): (r: Option<PersonData>)
    ensures r.Some? <==> frame.Some? && frame.value.people.Some? && 0 <= index < |frame.value.people.value|
    ensures r.Some? ==> r.value in frame.value.people.value
  {
    if frame.None? || frame.value.people.None? then None
    else if index < 0 || index >= |frame.value.people.value| then None
    else Some(frame.value.people.value[index])
  }

  class PoseReceiver {
    /** The handoff queue, front first; the receive loop appends and `Update` drains. */
    var queue: seq<PoseData>
    var latestFrame: Option<PoseData>
    var lastReceiveTime: real
    var running: bool

    constructor ()
      ensures queue == [] && latestFrame == None && lastReceiveTime == 0.0 && !running
    {
      queue := [];
      latestFrame := None;
      lastReceiveTime := 0.0;
      running := false;
    }

    /** `Start`, without the socket and the thread: the receive loop may run. */
    method Start()
      modifies this`running
      ensures running
    {
      running := true;
    }

    /** `OnDestroy`, without closing the socket and aborting the thread: the receive loop stops. */
    method OnDestroy()
      modifies this`running
      ensures !running
    {
      running := false;
    }

    /**
     * One iteration of the receive loop: an admitted frame is enqueued at the
     * back; a null frame, a frame without people, or a caught error leave the
     * queue as it was.
     */
    method Receive(msg: Message)
      modifies this`queue
      ensures queue == old(queue) + Accepted([msg])
      ensures msg.Decoded? && Admitted(msg.frame) ==> queue == old(queue) + [msg.frame.value]
      ensures !(msg.Decoded? && Admitted(msg.frame)) ==> queue == old(queue)
    {
      assert [msg][..0] == [];
      match msg {
        case Decoded(frame) =>
          if frame.Some? && frame.value.people.Some? {
            queue := queue + [frame.value];
          }
        case Failed =>
      }
    }

    /**
     * `ReceiveLoop` over the messages that arrive while `running`: every
     * admitted frame is appended in arrival order and nothing else changes.
     */
    method ReceiveLoop(inbox: seq<Message>)
      modifies this`queue
      ensures queue == old(queue) + (if running then Accepted(inbox) else [])
    {
      var i := 0;
      while running && i < |inbox|
        invariant 0 <= i <= |inbox|
        invariant queue == old(queue) + Accepted(inbox[..i])
        invariant !running ==> i == 0
      {
        Receive(inbox[i]);
        AcceptedStep(inbox, i);
        i := i + 1;
      }
      if running {
        assert inbox[..i] == inbox;
      }
    }

    /**
     * `Update`: drains the whole queue into `latestFrame`, so the last frame
     * enqueued wins, and stamps `lastReceiveTime` with `now` exactly when a
     * frame was dequeued.
     */
    method Update(now: real)
      modifies this`queue, this`latestFrame, this`lastReceiveTime
      ensures queue == []
      ensures latestFrame == Drained(old(latestFrame), old(queue))
      ensures latestFrame == if old(queue) == [] then old(latestFrame) else Some(old(queue)[|old(queue)| - 1])
      ensures lastReceiveTime == if old(queue) != [] then now else old(lastReceiveTime)
    {
      var gotFrame := false;
      ghost var taken: seq<PoseData> := [];
      while queue != []
        invariant old(queue) == taken + queue
        invariant latestFrame == Drained(old(latestFrame), taken)
        invariant gotFrame <==> taken != []
        invariant lastReceiveTime == old(lastReceiveTime)
        decreases |queue|
      {
        var frame := queue[0];
        queue := queue[1..];
        DrainedAppend(old(latestFrame), taken, [frame]);
        taken := taken + [frame];
        latestFrame := Some(frame);
        gotFrame := true;
      }
      assert taken == old(queue);
      if gotFrame {
        lastReceiveTime := now;
      }
      DrainedIsLast(old(latestFrame), old(queue));
    }

    /** `GetPerson(index)`: a read-only, bounds-checked lookup into the latest frame. */
    function GetPerson(index: int): (r: Option<PersonData>)
      reads this
      ensures r.Some? <==> latestFrame.Some? && latestFrame.value.people.Some? && 0 <= index < |latestFrame.value.people.value|
      ensures r.Some? ==> r == Some(latestFrame.value.people.value[index])
    {
      PersonAt(latestFrame, index)
    }
  }
}
