/**
 * `PuppetRootMover`: slides the puppet's root towards a target each frame —
 * the person's horizontal position mapped into the scene while tracking is
 * alive, an offscreen position chosen by person index otherwise.
 */
module RootMover {
  import opened Wrappers
  import opened UnityMath
  import opened PoseReceiving

  /** The inspector settings. */
  datatype MoverSettings = MoverSettings(
    lostTimeout: real,
    sceneMinX: real, sceneMaxX: real, moveSmooth: real,
    offscreenLeft: real, offscreenRight: real, disappearSpeed: real)

  /** Tracking is alive while the last frame arrived less than `lostTimeout` ago. */
  predicate TrackingAlive(now: real, lastReceiveTime: real, lostTimeout: real)
  {
    now - lastReceiveTime < lostTimeout
  }

  /** The person the mover follows: the receiver's person, unless tracking is lost. */
  function TrackedPerson(alive: bool, found: Option<PersonData>): (r: Option<PersonData>)
    ensures r.Some? <==> alive && found.Some?
    ensures r.Some? ==> r == found
  {
    if alive then found else None
  }

  /**
   * The root's target: with a person, `center_x` mapped from [0, 1] onto
   * [sceneMinX, sceneMaxX]; without one, the left offscreen point for person
   * 0 and the right one for any other index. The height and depth stay.
   */
  function RootTarget(person: Option<PersonData>, current: Vec3, personIndex: int, s: MoverSettings): (t: Vec3)
    ensures t.y == current.y && t.z == current.z
    ensures person.Some? ==> Between(t.x, s.sceneMinX, s.sceneMaxX)
    ensures person.Some? && person.value.centerX <= 0.0 ==> t.x == s.sceneMinX
    ensures person.Some? && person.value.centerX >= 1.0 ==> t.x == s.sceneMaxX
    ensures person.None? ==> t.x == if personIndex == 0 then s.offscreenLeft else s.offscreenRight
  {
    match person
    case Some(p) =>
      LerpBetween(s.sceneMinX, s.sceneMaxX, p.centerX);
      LerpEnds(s.sceneMinX, s.sceneMaxX, p.centerX);
      Vec3(Lerp(s.sceneMinX, s.sceneMaxX, p.centerX), current.y, current.z)
    case None =>
      Vec3(if personIndex == 0 then s.offscreenLeft else s.offscreenRight, current.y, current.z)
  }

  /** The speed factor: `moveSmooth` while a person is seen, `disappearSpeed` otherwise. */
  function Rate(hasPerson: bool, s: MoverSettings): real
  {
    if hasPerson then s.moveSmooth else s.disappearSpeed
  }

  /** One frame's move of the root: `Vector3.Lerp` towards the target by `deltaTime * rate`. */
  function RootStep(position: Vec3, target: Vec3, deltaTime: real, rate: real): (r: Vec3)
    ensures Between(r.x, position.x, target.x) && Between(r.y, position.y, target.y) && Between(r.z, position.z, target.z)
    ensures deltaTime * rate <= 0.0 ==> r == position
    ensures deltaTime * rate >= 1.0 ==> r == target
  {
    Lerp3Between(position, target, deltaTime * rate);
    LerpEnds(position.x, target.x, deltaTime * rate);
    LerpEnds(position.y, target.y, deltaTime * rate);
    LerpEnds(position.z, target.z, deltaTime * rate);
    Lerp3(position, target, deltaTime * rate)
  }

  /** The root never drifts vertically or in depth: the target keeps them, so the step does too. */
  lemma RootStepKeepsHeight(position: Vec3, person: Option<PersonData>, personIndex: int, s: MoverSettings, deltaTime: real, rate: real)
    ensures var r := RootStep(position, RootTarget(person, position, personIndex, s), deltaTime, rate);
      r.y == position.y && r.z == position.z
  {
    var t := RootTarget(person, position, personIndex, s);
    var r := RootStep(position, t, deltaTime, rate);
    assert Between(r.y, position.y, t.y) && Between(r.z, position.z, t.z);
  }

  /** With a person in view and a root already inside the scene range, a step keeps the root inside it. */
  lemma RootStaysInScene(position: Vec3, p: PersonData, personIndex: int, s: MoverSettings, deltaTime: real, rate: real)
    requires Between(position.x, s.sceneMinX, s.sceneMaxX)
    ensures Between(RootStep(position, RootTarget(Some(p), position, personIndex, s), deltaTime, rate).x, s.sceneMinX, s.sceneMaxX)
  {
    var t := RootTarget(Some(p), position, personIndex, s);
    var r := RootStep(position, t, deltaTime, rate);
    assert Between(r.x, position.x, t.x);
  }

  class PuppetRootMover {
    const receiver: PoseReceiver?
    const personIndex: int
    const settings: MoverSettings
    var targetPos: Vec3
    var hasPerson: bool
    /** `transform.position`. */
    var position: Vec3

    constructor (receiver: PoseReceiver?, personIndex: int, settings: MoverSettings, position: Vec3)
      ensures this.receiver == receiver && this.personIndex == personIndex && this.settings == settings
      ensures this.position == position && !hasPerson
      ensures targetPos == Vec3(0.0, 0.0, 0.0)
    {
      this.receiver := receiver;
      this.personIndex := personIndex;
      this.settings := settings;
      this.position := position;
      hasPerson := false;
      targetPos := Vec3(0.0, 0.0, 0.0);
    }

    /**
     * `Update`, given `Time.time` and `Time.deltaTime`: without a receiver
     * nothing changes; otherwise the target is chosen from the tracked person
     * and the root takes one step towards it.
     */
    method Update(now: real, deltaTime: real)
      modifies this`targetPos, this`hasPerson, this`position
      ensures receiver == null ==>
        targetPos == old(targetPos) && hasPerson == old(hasPerson) && position == old(position)
      ensures receiver != null ==>
        var person := TrackedPerson(TrackingAlive(now, receiver.lastReceiveTime, settings.lostTimeout), receiver.GetPerson(personIndex));
        && hasPerson == person.Some?
        && targetPos == RootTarget(person, old(position), personIndex, settings)
        && position == RootStep(old(position), targetPos, deltaTime, Rate(hasPerson, settings))
    {
      if receiver == null {
        return;
      }
      var trackingAlive := now - receiver.lastReceiveTime < settings.lostTimeout;
      var person := if trackingAlive then receiver.GetPerson(personIndex) else None;
      if person.Some? {
        hasPerson := true;
        var x := Lerp(settings.sceneMinX, settings.sceneMaxX, person.value.centerX);
        targetPos := Vec3(x, position.y, position.z);
      } else {
        hasPerson := false;
        var outX := if personIndex == 0 then settings.offscreenLeft else settings.offscreenRight;
        targetPos := Vec3(outX, position.y, position.z);
      }
      position := Lerp3(position, targetPos, deltaTime * (if hasPerson then settings.moveSmooth else settings.disappearSpeed));
    }
  }
}
