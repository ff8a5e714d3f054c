/**
 * `AnglePuppetController`: the landmark-based driver. Each frame it looks the
 * landmarks up by name, requires the four core joints, computes ten mocap
 * angles, captures them once as the neutral pose, and then drives eleven bones
 * to `rest + (current - neutral) * intensity` through a seeded smoothing cache.
 */
module AnglePuppet {
  import opened Wrappers
  import opened UnityMath
  import opened AngleSmoothing

  datatype Vec2 = Vec2(x: real, y: real)

  /** A named 2D joint position. */
  datatype Landmark = Landmark(name: string, position: Vec2)

  /** The landmark pose the controller reads; `None` landmarks stand for a null array. */
  datatype Pose = Pose(landmarks: Option<seq<Landmark>>)

  /** The ten mocap angles of one frame (or of the neutral or rest pose). */
  datatype BodyAngles = BodyAngles(
    torso: real, head: real,
    lUpperArm: real, lLowerArm: real,
    rUpperArm: real, rLowerArm: real,
    lThigh: real, lLeg: real,
    rThigh: real, rLeg: real)

  /** The intensity settings. */
  datatype Intensities = Intensities(arm: real, leg: real, torso: real, head: real)

  /** How a `LateUpdate` ended. */
  datatype Status =
    | NoPose            // no pose, or a null or empty landmarks array
    | MissingCoreJoint  // a shoulder or hip is missing
    | MissingJoint      // a limb joint is missing: the lookup throws before any state changes
    | Uncalibrated      // calibration is manual and has not happened
    | Applied           // the bones were driven

  function Add(p: Vec2, q: Vec2): Vec2 { Vec2(p.x + q.x, p.y + q.y) }

  function Sub(p: Vec2, q: Vec2): Vec2 { Vec2(p.x - q.x, p.y - q.y) }

  /** `(p + q) * 0.5`. */
  function Mid(p: Vec2, q: Vec2): Vec2 { Vec2((p.x + q.x) * 0.5, (p.y + q.y) * 0.5) }

  /**
   * `AngleDeg(a, b)` and `A`: the angle in degrees of the direction from `a`
   * to `b`. `heading` stands for `Atan2` of the normalised offset times
   * `Rad2Deg`, which only sees the offset `b - a`.
   */
  function AngleDeg(heading: Vec2 -> real, a: Vec2, b: Vec2): real
  {
    heading(Sub(b, a))
  }

  /** The name to position dictionary: each landmark overwrites the entry of its name. */
  function Lookup(ls: seq<Landmark>): (lm: map<string, Vec2>)
    ensures lm.Keys == set l | l in ls :: l.name
  {
    if ls == [] then map[]
    else
      var front := ls[..|ls| - 1];
      var last := ls[|ls| - 1];
      assert ls == front + [last];
      Lookup(front)[last.name := last.position]
  }

  /** A repeated name resolves to the last landmark that has it. */
  lemma {:induction false} LookupLastWins(ls: seq<Landmark>, i: int)
    requires 0 <= i < |ls|
    requires forall j :: i < j < |ls| ==> ls[j].name != ls[i].name
    ensures ls[i].name in Lookup(ls) && Lookup(ls)[ls[i].name] == ls[i].position
  {
    if i < |ls| - 1 {
      var front := ls[..|ls| - 1];
      LookupLastWins(front, i);
    }
  }

  /** The lookup loop at the start of `LateUpdate`. */
  method BuildLookup(ls: seq<Landmark>) returns (lm: map<string, Vec2>)
    ensures lm == Lookup(ls)
  {
    lm := map[];
    for i := 0 to |ls|
      invariant lm == Lookup(ls[..i])
    {
      assert ls[..i + 1][..i] == ls[..i];
      lm := lm[ls[i].name := ls[i].position];
    }
    assert ls[..|ls|] == ls;
  }

  /** The four joints `LateUpdate` checks before computing any angle. */
  predicate HasCoreJoints(lm: map<string, Vec2>)
  {
    "left_shoulder" in lm && "right_shoulder" in lm && "left_hip" in lm && "right_hip" in lm
  }

  /** The joints `A` reads without a check; a missing one throws `KeyNotFoundException`. */
  predicate HasLimbJoints(lm: map<string, Vec2>)
  {
    && "left_elbow" in lm && "left_wrist" in lm && "right_elbow" in lm && "right_wrist" in lm
    && "left_knee" in lm && "left_ankle" in lm && "right_knee" in lm && "right_ankle" in lm
  }

  /** The positions `LateUpdate` reads: the core joints, the optional nose, and the limb joints. */
  datatype Joints = Joints(
    lShoulder: Vec2, rShoulder: Vec2, lHip: Vec2, rHip: Vec2, nose: Option<Vec2>,
    lElbow: Vec2, lWrist: Vec2, rElbow: Vec2, rWrist: Vec2,
    lKnee: Vec2, lAnkle: Vec2, rKnee: Vec2, rAnkle: Vec2)

  function JointsOf(lm: map<string, Vec2>): (j: Joints)
    requires HasCoreJoints(lm) && HasLimbJoints(lm)
    ensures j.nose.None? <==> "nose" !in lm
  {
    Joints(
      lm["left_shoulder"], lm["right_shoulder"], lm["left_hip"], lm["right_hip"],
      if "nose" in lm then Some(lm["nose"]) else None,
      lm["left_elbow"], lm["left_wrist"], lm["right_elbow"], lm["right_wrist"],
      lm["left_knee"], lm["left_ankle"], lm["right_knee"], lm["right_ankle"])
  }

  /**
   * The ten mocap angles of a set of joints: the torso from the hip midpoint
   * to the shoulder midpoint, the head from the shoulder midpoint to the nose
   * (or the torso's angle without a nose), each limb segment joint to joint.
   */
  function AnglesOf(j: Joints, heading: Vec2 -> real): (a: BodyAngles)
    ensures j.nose.None? ==> a.head == a.torso
  {
    var hipMid := Mid(j.lHip, j.rHip);
    var shoulderMid := Mid(j.lShoulder, j.rShoulder);
    var torso := AngleDeg(heading, hipMid, shoulderMid);
    BodyAngles(
      torso,
      if j.nose.Some? then AngleDeg(heading, shoulderMid, j.nose.value) else torso,
      AngleDeg(heading, j.lShoulder, j.lElbow), AngleDeg(heading, j.lElbow, j.lWrist),
      AngleDeg(heading, j.rShoulder, j.rElbow), AngleDeg(heading, j.rElbow, j.rWrist),
      AngleDeg(heading, j.lHip, j.lKnee), AngleDeg(heading, j.lKnee, j.lAnkle),
      AngleDeg(heading, j.rHip, j.rKnee), AngleDeg(heading, j.rKnee, j.rAnkle))
  }

  /** The ten current mocap angles of a lookup that passed both joint checks. */
  function CurrentAngles(lm: map<string, Vec2>, heading: Vec2 -> real): (a: BodyAngles)
    requires HasCoreJoints(lm) && HasLimbJoints(lm)
    ensures "nose" !in lm ==> a.head == a.torso
  {
    AnglesOf(JointsOf(lm), heading)
  }

  /** Every landmark moved by the same offset. */
  function Translate(ls: seq<Landmark>, offset: Vec2): (r: seq<Landmark>)
    ensures |r| == |ls|
    ensures forall i :: 0 <= i < |ls| ==> r[i] == Landmark(ls[i].name, Add(ls[i].position, offset))
  {
    if ls == [] then [] else [Landmark(ls[0].name, Add(ls[0].position, offset))] + Translate(ls[1..], offset)
  }

  /** Moving every landmark by one offset moves every lookup entry by it. */
  lemma {:induction false} LookupTranslate(ls: seq<Landmark>, offset: Vec2)
    ensures Lookup(Translate(ls, offset)).Keys == Lookup(ls).Keys
    ensures forall k :: k in Lookup(ls) ==> Lookup(Translate(ls, offset))[k] == Add(Lookup(ls)[k], offset)
  {
    if ls != [] {
      var front := ls[..|ls| - 1];
      var moved := Translate(ls, offset);
      LookupTranslate(front, offset);
      assert moved[..|moved| - 1] == Translate(front, offset);
    }
  }

  function ShiftJoints(j: Joints, o: Vec2): Joints
  {
    Joints(
      Add(j.lShoulder, o), Add(j.rShoulder, o), Add(j.lHip, o), Add(j.rHip, o),
      if j.nose.Some? then Some(Add(j.nose.value, o)) else None,
      Add(j.lElbow, o), Add(j.lWrist, o), Add(j.rElbow, o), Add(j.rWrist, o),
      Add(j.lKnee, o), Add(j.lAnkle, o), Add(j.rKnee, o), Add(j.rAnkle, o))
  }

  /** A segment's angle only sees the offset between its ends. */
  lemma AngleDegTranslate(heading: Vec2 -> real, p: Vec2, q: Vec2, offset: Vec2)
    ensures AngleDeg(heading, Add(p, offset), Add(q, offset)) == AngleDeg(heading, p, q)
  {
    assert Sub(Add(q, offset), Add(p, offset)) == Sub(q, p);
  }

  /** Moving every joint by one offset leaves all ten angles as they were. */
  lemma AnglesOfShift(j: Joints, o: Vec2, heading: Vec2 -> real)
    ensures AnglesOf(ShiftJoints(j, o), heading) == AnglesOf(j, heading)
  {
    var hipMid, shoulderMid := Mid(j.lHip, j.rHip), Mid(j.lShoulder, j.rShoulder);
    assert Mid(Add(j.lHip, o), Add(j.rHip, o)) == Add(hipMid, o);
    assert Mid(Add(j.lShoulder, o), Add(j.rShoulder, o)) == Add(shoulderMid, o);
    AngleDegTranslate(heading, hipMid, shoulderMid, o);
    if j.nose.Some? {
      AngleDegTranslate(heading, shoulderMid, j.nose.value, o);
    }
    AngleDegTranslate(heading, j.lShoulder, j.lElbow, o);
    AngleDegTranslate(heading, j.lElbow, j.lWrist, o);
    AngleDegTranslate(heading, j.rShoulder, j.rElbow, o);
    AngleDegTranslate(heading, j.rElbow, j.rWrist, o);
    AngleDegTranslate(heading, j.lHip, j.lKnee, o);
    AngleDegTranslate(heading, j.lKnee, j.lAnkle, o);
    AngleDegTranslate(heading, j.rHip, j.rKnee, o);
    AngleDegTranslate(heading, j.rKnee, j.rAnkle, o);
  }

  /** A person standing elsewhere in the picture passes the same checks and yields the same ten angles. */
  lemma CurrentAnglesIgnoreTranslation(ls: seq<Landmark>, offset: Vec2, heading: Vec2 -> real)
    requires HasCoreJoints(Lookup(ls)) && HasLimbJoints(Lookup(ls))
    ensures HasCoreJoints(Lookup(Translate(ls, offset))) && HasLimbJoints(Lookup(Translate(ls, offset)))
    ensures CurrentAngles(Lookup(Translate(ls, offset)), heading) == CurrentAngles(Lookup(ls), heading)
  {
    var lm, moved := Lookup(ls), Lookup(Translate(ls, offset));
    LookupTranslate(ls, offset);
    assert JointsOf(moved) == ShiftJoints(JointsOf(lm), offset);
    AnglesOfShift(JointsOf(lm), offset, heading);
  }

  /** `(current - neutral)` per angle. */
  function Deltas(current: BodyAngles, neutral: BodyAngles): BodyAngles
  {
    BodyAngles(
      current.torso - neutral.torso, current.head - neutral.head,
      current.lUpperArm - neutral.lUpperArm, current.lLowerArm - neutral.lLowerArm,
      current.rUpperArm - neutral.rUpperArm, current.rLowerArm - neutral.rLowerArm,
      current.lThigh - neutral.lThigh, current.lLeg - neutral.lLeg,
      current.rThigh - neutral.rThigh, current.rLeg - neutral.rLeg)
  }

  /** The `ApplyBoneAngle` target: the rest angle moved by the scaled delta from neutral. */
  function BoneAngleTarget(restAngle: real, deltaFromNeutral: real, intensity: real): (r: real)
    ensures deltaFromNeutral == 0.0 || intensity == 0.0 ==> r == restAngle
    ensures intensity == 1.0 ==> r == restAngle + deltaFromNeutral
  {
    restAngle + deltaFromNeutral * intensity
  }

  function AngleJob(key: string, restAngle: real, delta: real, intensity: real): Job
  {
    Job(key, BoneAngleTarget(restAngle, delta, intensity), true)
  }

  /** The eleven smoothing-cache keys, in the order `LateUpdate` applies them. */
  const AngleKeys: seq<string> := [
    "torso", "lower_torso", "head",
    "lUpperArm", "lLowerArm",
    "rUpperArm", "rLowerArm",
    "lThigh", "lLeg",
    "rThigh", "rLeg"]

  /** The torso, lower torso and head requests; both torso bones use the torso's rest angle, delta and intensity. */
  function TorsoHeadJobs(rest: BodyAngles, d: BodyAngles, k: Intensities): seq<Job>
  {
    [ AngleJob("torso", rest.torso, d.torso, k.torso),
      AngleJob("lower_torso", rest.torso, d.torso, k.torso),
      AngleJob("head", rest.head, d.head, k.head) ]
  }

  function LeftArmJobs(rest: BodyAngles, d: BodyAngles, k: Intensities): seq<Job>
  {
    [AngleJob("lUpperArm", rest.lUpperArm, d.lUpperArm, k.arm), AngleJob("lLowerArm", rest.lLowerArm, d.lLowerArm, k.arm)]
  }

  function RightArmJobs(rest: BodyAngles, d: BodyAngles, k: Intensities): seq<Job>
  {
    [AngleJob("rUpperArm", rest.rUpperArm, d.rUpperArm, k.arm), AngleJob("rLowerArm", rest.rLowerArm, d.rLowerArm, k.arm)]
  }

  function LeftLegJobs(rest: BodyAngles, d: BodyAngles, k: Intensities): seq<Job>
  {
    [AngleJob("lThigh", rest.lThigh, d.lThigh, k.leg), AngleJob("lLeg", rest.lLeg, d.lLeg, k.leg)]
  }

  function RightLegJobs(rest: BodyAngles, d: BodyAngles, k: Intensities): seq<Job>
  {
    [AngleJob("rThigh", rest.rThigh, d.rThigh, k.leg), AngleJob("rLeg", rest.rLeg, d.rLeg, k.leg)]
  }

  /** The eleven `ApplyBoneAngle` requests of a calibrated frame with deltas `d`. */
  function AngleFrameJobs(rest: BodyAngles, d: BodyAngles, k: Intensities): seq<Job>
  {
    TorsoHeadJobs(rest, d, k) + LeftArmJobs(rest, d, k) + RightArmJobs(rest, d, k) + LeftLegJobs(rest, d, k) + RightLegJobs(rest, d, k)
  }

  /** The eleven cache keys are pairwise different. */
  lemma AngleKeysDistinct()
    ensures forall i, j :: 0 <= i < j < |AngleKeys| ==> AngleKeys[i] != AngleKeys[j]
  {
  }

  /** Each section's requests name its keys in `AngleKeys` order. */
  lemma AngleSectionKeys(rest: BodyAngles, d: BodyAngles, k: Intensities)
    ensures var th, la, ra, ll, rl := TorsoHeadJobs(rest, d, k), LeftArmJobs(rest, d, k), RightArmJobs(rest, d, k), LeftLegJobs(rest, d, k), RightLegJobs(rest, d, k);
      && |th| == 3 && th[0].key == AngleKeys[0] && th[1].key == AngleKeys[1] && th[2].key == AngleKeys[2]
      && |la| == 2 && la[0].key == AngleKeys[3] && la[1].key == AngleKeys[4]
      && |ra| == 2 && ra[0].key == AngleKeys[5] && ra[1].key == AngleKeys[6]
      && |ll| == 2 && ll[0].key == AngleKeys[7] && ll[1].key == AngleKeys[8]
      && |rl| == 2 && rl[0].key == AngleKeys[9] && rl[1].key == AngleKeys[10]
  {
  }

  /** A calibrated frame makes eleven requests, one per cache key, all of them applied. */
  lemma AngleFrameJobsKeys(rest: BodyAngles, d: BodyAngles, k: Intensities)
    ensures var jobs := AngleFrameJobs(rest, d, k);
      && |jobs| == 11 && DistinctKeys(jobs)
      && (forall i :: 0 <= i < |jobs| ==> jobs[i].key == AngleKeys[i] && jobs[i].active)
  {
    var th, la, ra, ll, rl := TorsoHeadJobs(rest, d, k), LeftArmJobs(rest, d, k), RightArmJobs(rest, d, k), LeftLegJobs(rest, d, k), RightLegJobs(rest, d, k);
    AngleSectionKeys(rest, d, k);
    var jobs := AngleFrameJobs(rest, d, k);
    assert jobs == th + la + ra + ll + rl;
    forall i | 0 <= i < |jobs|
      ensures jobs[i].key == AngleKeys[i] && jobs[i].active
    {
      if i < 3 {
        assert jobs[i] == th[i];
      } else if i < 5 {
        assert jobs[i] == la[i - 3];
      } else if i < 7 {
        assert jobs[i] == ra[i - 5];
      } else if i < 9 {
        assert jobs[i] == ll[i - 7];
      } else {
        assert jobs[i] == rl[i - 9];
      }
    }
    AngleKeysDistinct();
  }

  /** The torso and lower torso requests carry the same target, whatever the frame. */
  lemma TorsoTargetsAgree(rest: BodyAngles, d: BodyAngles, k: Intensities)
    ensures var jobs := AngleFrameJobs(rest, d, k);
      |jobs| == 11 && jobs[0].key == "torso" && jobs[1].key == "lower_torso" && jobs[0].target == jobs[1].target
  {
    AngleFrameJobsKeys(rest, d, k);
  }

  /** The torso and lower torso cache entries are both absent or both present with equal values. */
  predicate TorsoPair(cache: map<string, real>)
  {
    ("torso" in cache <==> "lower_torso" in cache) &&
    ("torso" in cache ==> cache["torso"] == cache["lower_torso"])
  }

  /** A calibrated frame keeps the two torso bones together. */
  lemma FramePreservesTorsoPair(cache: map<string, real>, rest: BodyAngles, d: BodyAngles, k: Intensities, alpha: real)
    requires TorsoPair(cache)
    ensures TorsoPair(SmoothAll(cache, AngleFrameJobs(rest, d, k), alpha))
  {
    var jobs := AngleFrameJobs(rest, d, k);
    AngleFrameJobsKeys(rest, d, k);
    TorsoTargetsAgree(rest, d, k);
    SmoothAllAt(cache, jobs, alpha, "torso");
    SmoothAllAt(cache, jobs, alpha, "lower_torso");
    var after := SmoothAll(cache, jobs, alpha);
    assert after["torso"] == SmoothedValue(cache, "torso", jobs[0].target, alpha);
    assert after["lower_torso"] == SmoothedValue(cache, "lower_torso", jobs[1].target, alpha);
  }

  /** Every bone at its rest angle, by cache key. */
  function RestPose(rest: BodyAngles): (m: map<string, real>)
    ensures m.Keys == set key | key in AngleKeys
  {
    map[
      "torso" := rest.torso, "lower_torso" := rest.torso, "head" := rest.head,
      "lUpperArm" := rest.lUpperArm, "lLowerArm" := rest.lLowerArm,
      "rUpperArm" := rest.rUpperArm, "rLowerArm" := rest.rLowerArm,
      "lThigh" := rest.lThigh, "lLeg" := rest.lLeg,
      "rThigh" := rest.rThigh, "rLeg" := rest.rLeg]
  }

  /** With every delta zero, each request's target is its key's rest angle. */
  lemma ZeroDeltaTargets(rest: BodyAngles, current: BodyAngles, k: Intensities)
    ensures var jobs := AngleFrameJobs(rest, Deltas(current, current), k);
      |jobs| == 11 && forall i :: 0 <= i < |jobs| ==> jobs[i].key in RestPose(rest) && jobs[i].target == RestPose(rest)[jobs[i].key]
  {
    var d := Deltas(current, current);
    var th, la, ra, ll, rl := TorsoHeadJobs(rest, d, k), LeftArmJobs(rest, d, k), RightArmJobs(rest, d, k), LeftLegJobs(rest, d, k), RightLegJobs(rest, d, k);
    var jobs := AngleFrameJobs(rest, d, k);
    var rp := RestPose(rest);
    assert jobs == th + la + ra + ll + rl;
    assert d == BodyAngles(0.0, 0.0, 0.0, 0.0, 0.0, 0.0, 0.0, 0.0, 0.0, 0.0);
    forall i | 0 <= i < |jobs|
      ensures jobs[i].key in rp && jobs[i].target == rp[jobs[i].key]
    {
      if i < 3 {
        assert jobs[i] == th[i];
      } else if i < 5 {
        assert jobs[i] == la[i - 3];
      } else if i < 7 {
        assert jobs[i] == ra[i - 5];
      } else if i < 9 {
        assert jobs[i] == ll[i - 7];
      } else {
        assert jobs[i] == rl[i - 9];
      }
    }
  }

  /**
   * On the calibration frame the neutral pose is the current pose, so every
   * delta is zero; starting from an empty cache, every bone ends at its rest
   * angle.
   */
  lemma CalibrationFrameShowsRest(cache: map<string, real>, rest: BodyAngles, current: BodyAngles, neutral: BodyAngles, k: Intensities, alpha: real)
    requires cache == map[] && neutral == current
    ensures SmoothAll(cache, AngleFrameJobs(rest, Deltas(current, neutral), k), alpha) == RestPose(rest)
  {
    var jobs := AngleFrameJobs(rest, Deltas(current, current), k);
    var after := SmoothAll(map[], jobs, alpha);
    var rp := RestPose(rest);
    AngleFrameJobsKeys(rest, Deltas(current, current), k);
    ZeroDeltaTargets(rest, current, k);
    forall key
      ensures key in after <==> key in rp
      ensures key in after ==> after[key] == rp[key]
    {
      SmoothAllAt(map[], jobs, alpha, key);
      if key in rp {
        var i :| 0 <= i < |AngleKeys| && AngleKeys[i] == key;
        assert jobs[i].key == key;
      }
    }
  }

  class AnglePuppetController {
    // Inspector settings, which the script itself never changes.
    const autoCalibrateOnFirstPose: bool
    const angleSmoothing: real
    const intensity: Intensities
    /** `Atan2` of the normalised offset, in degrees. */
    const heading: Vec2 -> real
    /** The rig's rest angles, which `Start` reads from the bones before the first frame. */
    const rest: BodyAngles
    var neutral: BodyAngles
    var calibrated: bool
    var smoothedAngles: map<string, real>
    /** The angle last written to each bone's local rotation, by cache key. */
    var emitted: map<string, real>

    /** Every bone shows its cached angle. */
    ghost predicate Shown()
      reads this
    {
      emitted == smoothedAngles
    }

    /** Nothing is cached before calibration, and the two torso bones move together. */
    ghost predicate Valid()
      reads this
    {
      Shown() && (!calibrated ==> smoothedAngles == map[]) && TorsoPair(smoothedAngles)
    }

    constructor (autoCalibrateOnFirstPose: bool, angleSmoothing: real, intensity: Intensities, heading: Vec2 -> real, rest: BodyAngles)
      ensures Valid()
      ensures this.autoCalibrateOnFirstPose == autoCalibrateOnFirstPose && this.angleSmoothing == angleSmoothing
      ensures this.intensity == intensity && this.heading == heading && this.rest == rest
      ensures !calibrated
    {
      this.rest := rest;
      this.autoCalibrateOnFirstPose := autoCalibrateOnFirstPose;
      this.angleSmoothing := angleSmoothing;
      this.intensity := intensity;
      this.heading := heading;
      calibrated := false;
      smoothedAngles := map[];
      emitted := map[];
    }

    /**
     * `ApplyBoneAngle`: seeds a new key with the target, then writes the
     * `LerpAngle` step to that key alone and shows it on the bone.
     */
    method ApplyBoneAngle(key: string, restAngle: real, deltaFromNeutral: real, boneIntensity: real)
      requires Shown()
      modifies this`smoothedAngles, this`emitted
      ensures Shown()
      ensures smoothedAngles == Step(old(smoothedAngles), AngleJob(key, restAngle, deltaFromNeutral, boneIntensity), 1.0 - angleSmoothing)
    {
      var target := restAngle + deltaFromNeutral * boneIntensity;
      if key !in smoothedAngles {
        smoothedAngles := smoothedAngles[key := target];
      }
      var smoothed := LerpAngle(smoothedAngles[key], target, 1.0 - angleSmoothing);
      smoothedAngles := smoothedAngles[key := smoothed];
      emitted := emitted[key := smoothed];
    }

    /** The lookup of a usable pose, or `None` for a missing pose or a null or empty landmarks array. */
    static function PoseLookup(pose: Option<Pose>): Option<map<string, Vec2>>
    {
      if pose.None? || pose.value.landmarks.None? || |pose.value.landmarks.value| == 0 then None
      else Some(Lookup(pose.value.landmarks.value))
    }

    /** The pose passes the gates and every angle can be computed. */
    static predicate Ready(pose: Option<Pose>)
    {
      PoseLookup(pose).Some? && HasCoreJoints(PoseLookup(pose).value) && HasLimbJoints(PoseLookup(pose).value)
    }

    /**
     * `LateUpdate`: no state changes until a pose passes the gates; the first
     * such pose (with automatic calibration) becomes the neutral pose; once
     * calibrated, the eleven bones are driven from the deltas to neutral.
     */
    method LateUpdate(pose: Option<Pose>) returns (status: Status)
      requires Valid()
      modifies this`neutral, this`calibrated, this`smoothedAngles, this`emitted
      ensures Valid()
      ensures status == NoPose <==> PoseLookup(pose).None?
      ensures status == MissingCoreJoint <==> PoseLookup(pose).Some? && !HasCoreJoints(PoseLookup(pose).value)
      ensures status == MissingJoint <==>
        PoseLookup(pose).Some? && HasCoreJoints(PoseLookup(pose).value) && !HasLimbJoints(PoseLookup(pose).value)
      ensures status == Uncalibrated <==> Ready(pose) && !autoCalibrateOnFirstPose && !old(calibrated)
      ensures status != Applied ==>
        neutral == old(neutral) && calibrated == old(calibrated) && smoothedAngles == old(smoothedAngles)
      ensures status == Applied <==> Ready(pose) && (autoCalibrateOnFirstPose || old(calibrated))
      ensures status == Applied ==> calibrated
      ensures status == Applied && old(calibrated) ==> neutral == old(neutral)
      ensures status == Applied && !old(calibrated) ==>
        neutral == CurrentAngles(PoseLookup(pose).value, heading) && smoothedAngles == RestPose(rest)
      ensures status == Applied ==>
        smoothedAngles == SmoothAll(old(smoothedAngles),
          AngleFrameJobs(rest, Deltas(CurrentAngles(PoseLookup(pose).value, heading), neutral), intensity),
          1.0 - angleSmoothing)
    {
      if pose.None? || pose.value.landmarks.None? || |pose.value.landmarks.value| == 0 {
        return NoPose;
      }
      var lm := BuildLookup(pose.value.landmarks.value);
      assert PoseLookup(pose) == Some(lm);
      if !("left_shoulder" in lm && "right_shoulder" in lm && "left_hip" in lm && "right_hip" in lm) {
        return MissingCoreJoint;
      }
      if !HasLimbJoints(lm) {
        return MissingJoint;
      }
      var current := CurrentAngles(lm, heading);
      status := CalibrateAndApply(current);
    }

    /**
     * The part of `LateUpdate` after the angles are known: the first frame
     * (with automatic calibration) becomes the neutral pose, and a calibrated
     * controller drives the eleven bones.
     */
    method CalibrateAndApply(current: BodyAngles) returns (status: Status)
      requires Valid()
      modifies this`neutral, this`calibrated, this`smoothedAngles, this`emitted
      ensures Valid()
      ensures status == Uncalibrated || status == Applied
      ensures status == Applied <==> autoCalibrateOnFirstPose || old(calibrated)
      ensures status == Uncalibrated ==>
        neutral == old(neutral) && calibrated == old(calibrated) && smoothedAngles == old(smoothedAngles)
      ensures status == Applied ==> calibrated && neutral == if old(calibrated) then old(neutral) else current
      ensures status == Applied && !old(calibrated) ==> smoothedAngles == RestPose(rest)
      ensures status == Applied ==>
        smoothedAngles == SmoothAll(old(smoothedAngles), AngleFrameJobs(rest, Deltas(current, neutral), intensity), 1.0 - angleSmoothing)
    {
      if autoCalibrateOnFirstPose && !calibrated {
        neutral := current;
        calibrated := true;
      }
      if !calibrated {
        return Uncalibrated;
      }
      ghost var start, alpha, d := smoothedAngles, 1.0 - angleSmoothing, Deltas(current, neutral);
      ApplyFrame(current);
      FramePreservesTorsoPair(start, rest, d, intensity, alpha);
      if !old(calibrated) {
        CalibrationFrameShowsRest(start, rest, current, neutral, intensity, alpha);
      }
      status := Applied;
    }

    /** The eleven `ApplyBoneAngle` calls of a calibrated frame, section by section. */
    method ApplyFrame(current: BodyAngles)
      requires Shown()
      modifies this`smoothedAngles, this`emitted
      ensures Shown()
      ensures smoothedAngles == SmoothAll(old(smoothedAngles), AngleFrameJobs(rest, Deltas(current, neutral), intensity), 1.0 - angleSmoothing)
    {
      ghost var start, alpha, d := smoothedAngles, 1.0 - angleSmoothing, Deltas(current, neutral);
      ghost var th, la, ra, ll, rl := TorsoHeadJobs(rest, d, intensity), LeftArmJobs(rest, d, intensity),
        RightArmJobs(rest, d, intensity), LeftLegJobs(rest, d, intensity), RightLegJobs(rest, d, intensity);
      ApplyTorsoAndHead(current);
      ghost var m1 := smoothedAngles;
      ApplyLeftArm(current);
      ghost var m2 := smoothedAngles;
      SmoothAllAppend(start, th, la, alpha);
      assert m2 == SmoothAll(start, th + la, alpha);
      ApplyRightArm(current);
      ghost var m3 := smoothedAngles;
      SmoothAllAppend(start, th + la, ra, alpha);
      assert m3 == SmoothAll(start, th + la + ra, alpha);
      ApplyLeftLeg(current);
      ghost var m4 := smoothedAngles;
      SmoothAllAppend(start, th + la + ra, ll, alpha);
      assert m4 == SmoothAll(start, th + la + ra + ll, alpha);
      ApplyRightLeg(current);
      SmoothAllAppend(start, th + la + ra + ll, rl, alpha);
    }

    /** The torso, lower torso and head part of a calibrated `LateUpdate`. */
    method ApplyTorsoAndHead(current: BodyAngles)
      requires Shown()
      modifies this`smoothedAngles, this`emitted
      ensures Shown()
      ensures smoothedAngles == SmoothAll(old(smoothedAngles), TorsoHeadJobs(rest, Deltas(current, neutral), intensity), 1.0 - angleSmoothing)
    {
      ghost var jobs, alpha, start := TorsoHeadJobs(rest, Deltas(current, neutral), intensity), 1.0 - angleSmoothing, smoothedAngles;
      assert jobs[0] == AngleJob("torso", rest.torso, current.torso - neutral.torso, intensity.torso);
      assert jobs[1] == AngleJob("lower_torso", rest.torso, current.torso - neutral.torso, intensity.torso);
      assert jobs[2] == AngleJob("head", rest.head, current.head - neutral.head, intensity.head);
      ApplyBoneAngle("torso", rest.torso, current.torso - neutral.torso, intensity.torso);
      SmoothPrefixNext(start, jobs, 0, alpha);
      assert smoothedAngles == SmoothPrefix(start, jobs, 1, alpha);
      ApplyBoneAngle("lower_torso", rest.torso, current.torso - neutral.torso, intensity.torso);
      SmoothPrefixNext(start, jobs, 1, alpha);
      assert smoothedAngles == SmoothPrefix(start, jobs, 2, alpha);
      ApplyBoneAngle("head", rest.head, current.head - neutral.head, intensity.head);
      SmoothPrefixNext(start, jobs, 2, alpha);
    }

    /** The left arm part of a calibrated `LateUpdate`. */
    method ApplyLeftArm(current: BodyAngles)
      requires Shown()
      modifies this`smoothedAngles, this`emitted
      ensures Shown()
      ensures smoothedAngles == SmoothAll(old(smoothedAngles), LeftArmJobs(rest, Deltas(current, neutral), intensity), 1.0 - angleSmoothing)
    {
      ghost var jobs, alpha, start := LeftArmJobs(rest, Deltas(current, neutral), intensity), 1.0 - angleSmoothing, smoothedAngles;
      assert jobs[0] == AngleJob("lUpperArm", rest.lUpperArm, current.lUpperArm - neutral.lUpperArm, intensity.arm);
      ApplyBoneAngle("lUpperArm", rest.lUpperArm, current.lUpperArm - neutral.lUpperArm, intensity.arm);
      SmoothPrefixNext(start, jobs, 0, alpha);
      assert smoothedAngles == SmoothPrefix(start, jobs, 1, alpha);
      assert jobs[1] == AngleJob("lLowerArm", rest.lLowerArm, current.lLowerArm - neutral.lLowerArm, intensity.arm);
      ApplyBoneAngle("lLowerArm", rest.lLowerArm, current.lLowerArm - neutral.lLowerArm, intensity.arm);
      SmoothPrefixNext(start, jobs, 1, alpha);
    }

    /** The right arm part of a calibrated `LateUpdate`. */
    method ApplyRightArm(current: BodyAngles)
      requires Shown()
      modifies this`smoothedAngles, this`emitted
      ensures Shown()
      ensures smoothedAngles == SmoothAll(old(smoothedAngles), RightArmJobs(rest, Deltas(current, neutral), intensity), 1.0 - angleSmoothing)
    {
      ghost var jobs, alpha, start := RightArmJobs(rest, Deltas(current, neutral), intensity), 1.0 - angleSmoothing, smoothedAngles;
      assert jobs[0] == AngleJob("rUpperArm", rest.rUpperArm, current.rUpperArm - neutral.rUpperArm, intensity.arm);
      ApplyBoneAngle("rUpperArm", rest.rUpperArm, current.rUpperArm - neutral.rUpperArm, intensity.arm);
      SmoothPrefixNext(start, jobs, 0, alpha);
      assert smoothedAngles == SmoothPrefix(start, jobs, 1, alpha);
      assert jobs[1] == AngleJob("rLowerArm", rest.rLowerArm, current.rLowerArm - neutral.rLowerArm, intensity.arm);
      ApplyBoneAngle("rLowerArm", rest.rLowerArm, current.rLowerArm - neutral.rLowerArm, intensity.arm);
      SmoothPrefixNext(start, jobs, 1, alpha);
    }

    /** The left leg part of a calibrated `LateUpdate`. */
    method ApplyLeftLeg(current: BodyAngles)
      requires Shown()
      modifies this`smoothedAngles, this`emitted
      ensures Shown()
      ensures smoothedAngles == SmoothAll(old(smoothedAngles), LeftLegJobs(rest, Deltas(current, neutral), intensity), 1.0 - angleSmoothing)
    {
      ghost var jobs, alpha, start := LeftLegJobs(rest, Deltas(current, neutral), intensity), 1.0 - angleSmoothing, smoothedAngles;
      assert jobs[0] == AngleJob("lThigh", rest.lThigh, current.lThigh - neutral.lThigh, intensity.leg);
      ApplyBoneAngle("lThigh", rest.lThigh, current.lThigh - neutral.lThigh, intensity.leg);
      SmoothPrefixNext(start, jobs, 0, alpha);
      assert smoothedAngles == SmoothPrefix(start, jobs, 1, alpha);
      assert jobs[1] == AngleJob("lLeg", rest.lLeg, current.lLeg - neutral.lLeg, intensity.leg);
      ApplyBoneAngle("lLeg", rest.lLeg, current.lLeg - neutral.lLeg, intensity.leg);
      SmoothPrefixNext(start, jobs, 1, alpha);
    }

    /** The right leg part of a calibrated `LateUpdate`. */
    method ApplyRightLeg(current: BodyAngles)
      requires Shown()
      modifies this`smoothedAngles, this`emitted
      ensures Shown()
      ensures smoothedAngles == SmoothAll(old(smoothedAngles), RightLegJobs(rest, Deltas(current, neutral), intensity), 1.0 - angleSmoothing)
    {
      ghost var jobs, alpha, start := RightLegJobs(rest, Deltas(current, neutral), intensity), 1.0 - angleSmoothing, smoothedAngles;
      assert jobs[0] == AngleJob("rThigh", rest.rThigh, current.rThigh - neutral.rThigh, intensity.leg);
      ApplyBoneAngle("rThigh", rest.rThigh, current.rThigh - neutral.rThigh, intensity.leg);
      SmoothPrefixNext(start, jobs, 0, alpha);
      assert smoothedAngles == SmoothPrefix(start, jobs, 1, alpha);
      assert jobs[1] == AngleJob("rLeg", rest.rLeg, current.rLeg - neutral.rLeg, intensity.leg);
      ApplyBoneAngle("rLeg", rest.rLeg, current.rLeg - neutral.rLeg, intensity.leg);
      SmoothPrefixNext(start, jobs, 1, alpha);
    }
  }
}
