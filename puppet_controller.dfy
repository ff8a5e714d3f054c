/**
 * `PuppetController`: drives ten bones from the per-bone angles of the latest
 * frame, after a one-shot calibration on the first frame that has a person.
 */
module PuppetControl {
  import opened Wrappers
  import opened UnityMath
  import opened PoseReceiving
  import opened AngleSmoothing

  /**
   * `BoneConfig`: whether a bone transform is assigned, the character's bind
   * angle, the user's bind angle, and the delta limits.
   */
  datatype BoneConfig = BoneConfig(hasBone: bool, bindZ: real, userBindZ: real, minDelta: real, maxDelta: real)

  /** The ten bone configurations of the rig, as the component's public fields. */
  datatype Rig = Rig(
    lowerBody: BoneConfig, head: BoneConfig,
    leftShoulder: BoneConfig, leftArm: BoneConfig,
    rightShoulder: BoneConfig, rightArm: BoneConfig,
    leftThigh: BoneConfig, leftLeg: BoneConfig,
    rightThigh: BoneConfig, rightLeg: BoneConfig)

  /** The bone names `Calibrate` records. */
  const CalibrationBones: seq<string> := [
    "torso", "head",
    "left_upper_arm", "left_lower_arm",
    "right_upper_arm", "right_lower_arm",
    "left_thigh", "left_leg",
    "right_thigh", "right_leg"]

  /**
   * The position of the first rotation named `bone`, or `|rs|` when there is
   * none: every rotation before it has another name.
   */
  function FirstIndex(rs: seq<BoneRotation>, bone: string): (i: nat)
    ensures i <= |rs|
    ensures i < |rs| ==> rs[i].name == bone
    ensures forall j :: 0 <= j < i ==> rs[j].name != bone
  {
    if rs == [] then 0
    else if rs[0].name == bone then 0
    else 1 + FirstIndex(rs[1..], bone)
  }

  /** The search of `GetRotationZ` over the rotations array: the `z` of the first match, or 0 without one. */
  function FirstZ(rs: seq<BoneRotation>, bone: string): (r: real)
    ensures var i := FirstIndex(rs, bone); r == if i < |rs| then rs[i].z else 0.0
  {
    if rs == [] then 0.0
    else if rs[0].name == bone then rs[0].z
    else FirstZ(rs[1..], bone)
  }

  /** `GetRotationZ`: 0 when the person has no rotations array, else the first match (0 without one). */
  function GetRotationZ(person: PersonData, bone: string): (r: real)
    ensures person.rotations.None? ==> r == 0.0
    ensures person.rotations.Some? ==>
      var rs := person.rotations.value;
      var i := FirstIndex(rs, bone);
      r == if i < |rs| then rs[i].z else 0.0
  {
    match person.rotations
    case None => 0.0
    case Some(rs) => FirstZ(rs, bone)
  }

  /** `GetRelativeRotation`: the child's angle relative to the parent's, as the shortest signed turn. */
  function GetRelativeRotation(parent: string, child: string, person: PersonData): (r: real)
    ensures -180.0 < r <= 180.0
    ensures Congruent360(r, GetRotationZ(person, child) - GetRotationZ(person, parent))
  {
    DeltaAngle(GetRotationZ(person, parent), GetRotationZ(person, child))
  }

  /** The angles `Calibrate` stores: the ten listed bones, each at its `GetRotationZ`. */
  function Baseline(person: PersonData): (m: map<string, real>)
    ensures m.Keys == set b | b in CalibrationBones
    ensures forall b :: b in m ==> m[b] == GetRotationZ(person, b)
  {
    map b | b in CalibrationBones :: GetRotationZ(person, b)
  }

  /**
   * The `ApplyBone` target before smoothing: the character bind angle plus the
   * shortest turn from the user's bind angle to `z`, clamped to the limits.
   */
  function BoneTarget(cfg: BoneConfig, z: real): (r: real)
    ensures cfg.minDelta <= cfg.maxDelta ==> cfg.bindZ + cfg.minDelta <= r <= cfg.bindZ + cfg.maxDelta
    ensures cfg.minDelta <= DeltaAngle(cfg.userBindZ, z) <= cfg.maxDelta ==> r == cfg.bindZ + DeltaAngle(cfg.userBindZ, z)
  {
    cfg.bindZ + Clamp(DeltaAngle(cfg.userBindZ, z), cfg.minDelta, cfg.maxDelta)
  }

  /** The `ApplyBoneRelative` target before smoothing: its input is negated, then clamped. */
  function RelativeTarget(cfg: BoneConfig, relativeZ: real): (r: real)
    ensures cfg.minDelta <= cfg.maxDelta ==> cfg.bindZ + cfg.minDelta <= r <= cfg.bindZ + cfg.maxDelta
    ensures cfg.minDelta <= -relativeZ <= cfg.maxDelta ==> r == cfg.bindZ - relativeZ
  {
    cfg.bindZ + Clamp(-relativeZ, cfg.minDelta, cfg.maxDelta)
  }

  /** `ApplyBone`'s request: the key, its `BoneTarget`, and whether the bone is assigned. */
  function AbsoluteJob(cfg: BoneConfig, key: string, z: real): Job
  {
    Job(key, BoneTarget(cfg, z), cfg.hasBone)
  }

  /** `ApplyBoneRelative`'s request: the key, its `RelativeTarget`, and whether the bone is assigned. */
  function RelativeJob(cfg: BoneConfig, key: string, relativeZ: real): Job
  {
    Job(key, RelativeTarget(cfg, relativeZ), cfg.hasBone)
  }

  /** The torso and head requests of a calibrated frame; the torso's input is `-2 * DeltaAngle(userBindZ, torso)`. */
  function TorsoHeadJobs(rig: Rig, person: PersonData): seq<Job>
  {
    var torsoRel := DeltaAngle(rig.lowerBody.userBindZ, GetRotationZ(person, "torso")) * -2.0;
    [RelativeJob(rig.lowerBody, "torso", torsoRel), AbsoluteJob(rig.head, "head", GetRotationZ(person, "head"))]
  }

  /** The left arm requests: the upper arm absolute, the lower arm relative to it. */
  function LeftArmJobs(rig: Rig, person: PersonData): seq<Job>
  {
    var lUpper, lLower := GetRotationZ(person, "left_upper_arm"), GetRotationZ(person, "left_lower_arm");
    [AbsoluteJob(rig.leftShoulder, "left_upper_arm", lUpper), RelativeJob(rig.leftArm, "left_lower_arm", -DeltaAngle(lUpper, lLower))]
  }

  /** The right arm requests, as for the left arm. */
  function RightArmJobs(rig: Rig, person: PersonData): seq<Job>
  {
    var rUpper, rLower := GetRotationZ(person, "right_upper_arm"), GetRotationZ(person, "right_lower_arm");
    [AbsoluteJob(rig.rightShoulder, "right_upper_arm", rUpper), RelativeJob(rig.rightArm, "right_lower_arm", -DeltaAngle(rUpper, rLower))]
  }

  /** The four leg requests, all absolute. */
  function LegJobs(rig: Rig, person: PersonData): seq<Job>
  {
    [ AbsoluteJob(rig.leftThigh, "left_thigh", GetRotationZ(person, "left_thigh")),
      AbsoluteJob(rig.leftLeg, "left_leg", GetRotationZ(person, "left_leg")),
      AbsoluteJob(rig.rightThigh, "right_thigh", GetRotationZ(person, "right_thigh")),
      AbsoluteJob(rig.rightLeg, "right_leg", GetRotationZ(person, "right_leg")) ]
  }

  /** The ten smoothing requests of a calibrated frame, in the order `LateUpdate` makes them. */
  function FrameJobs(rig: Rig, person: PersonData): seq<Job>
  {
    TorsoHeadJobs(rig, person) + LeftArmJobs(rig, person) + RightArmJobs(rig, person) + LegJobs(rig, person)
  }

  /** The ten calibration bone names are pairwise different. */
  lemma CalibrationBonesDistinct()
    ensures forall i, j :: 0 <= i < j < |CalibrationBones| ==> CalibrationBones[i] != CalibrationBones[j]
  {
  }

  /** The torso and head requests name "torso" and "head". */
  lemma TorsoHeadKeys(rig: Rig, person: PersonData)
    ensures var th := TorsoHeadJobs(rig, person); |th| == 2 && th[0].key == "torso" && th[1].key == "head"
  {
  }

  /** The arm requests name the upper arm, then the lower arm, of each side. */
  lemma ArmKeys(rig: Rig, person: PersonData)
    ensures var la := LeftArmJobs(rig, person); |la| == 2 && la[0].key == "left_upper_arm" && la[1].key == "left_lower_arm"
    ensures var ra := RightArmJobs(rig, person); |ra| == 2 && ra[0].key == "right_upper_arm" && ra[1].key == "right_lower_arm"
  {
  }

  /** The leg requests name the left thigh and leg, then the right thigh and leg. */
  lemma LegKeys(rig: Rig, person: PersonData)
    ensures var lg := LegJobs(rig, person);
      |lg| == 4 && lg[0].key == "left_thigh" && lg[1].key == "left_leg" && lg[2].key == "right_thigh" && lg[3].key == "right_leg"
  {
  }

  /** Four sections whose keys run through `CalibrationBones` in turn concatenate to requests for those keys in order. */
  lemma ConcatKeys(th: seq<Job>, la: seq<Job>, ra: seq<Job>, lg: seq<Job>)
    requires |th| == 2 && th[0].key == "torso" && th[1].key == "head"
    requires |la| == 2 && la[0].key == "left_upper_arm" && la[1].key == "left_lower_arm"
    requires |ra| == 2 && ra[0].key == "right_upper_arm" && ra[1].key == "right_lower_arm"
    requires |lg| == 4 && lg[0].key == "left_thigh" && lg[1].key == "left_leg" && lg[2].key == "right_thigh" && lg[3].key == "right_leg"
    ensures var jobs := th + la + ra + lg;
      |jobs| == 10 && forall i :: 0 <= i < |jobs| ==> jobs[i].key == CalibrationBones[i]
  {
    var jobs := th + la + ra + lg;
    var front, back := th + la, ra + lg;
    assert jobs == front + back;
    forall i | 0 <= i < |jobs|
      ensures jobs[i].key == CalibrationBones[i]
    {
      if i < 4 {
        assert jobs[i] == front[i];
        if i < 2 {
          assert front[i] == th[i];
        } else {
          assert front[i] == la[i - 2];
        }
      } else {
        assert jobs[i] == back[i - 4];
        if i < 6 {
          assert back[i - 4] == ra[i - 4];
        } else {
          assert back[i - 4] == lg[i - 6];
        }
      }
    }
  }

  /** A calibrated frame makes ten requests for ten distinct bone keys, the keys `Calibrate` records, in the same order. */
  lemma FrameJobsDistinct(rig: Rig, person: PersonData)
    ensures var jobs := FrameJobs(rig, person);
      |jobs| == 10 && DistinctKeys(jobs) && (forall i :: 0 <= i < |jobs| ==> jobs[i].key == CalibrationBones[i])
  {
    TorsoHeadKeys(rig, person);
    ArmKeys(rig, person);
    LegKeys(rig, person);
    ConcatKeys(TorsoHeadJobs(rig, person), LeftArmJobs(rig, person), RightArmJobs(rig, person), LegJobs(rig, person));
    CalibrationBonesDistinct();
    DistinctByKeys(FrameJobs(rig, person), CalibrationBones);
  }

  /**
   * After its negation in `ApplyBoneRelative`, the torso clamps
   * `2 * DeltaAngle(userBindZ, torso)` and each lower arm clamps
   * `DeltaAngle(upper, lower)`, the lower arm's turn relative to the upper arm.
   */
  lemma FrameJobsShape(rig: Rig, person: PersonData)
    ensures var jobs := FrameJobs(rig, person);
      && (var t := GetRotationZ(person, "torso"); var c := rig.lowerBody;
          jobs[0] == Job("torso", c.bindZ + Clamp(2.0 * DeltaAngle(c.userBindZ, t), c.minDelta, c.maxDelta), c.hasBone))
      && (var c := rig.leftArm;
          jobs[3] == Job("left_lower_arm", c.bindZ + Clamp(GetRelativeRotation("left_upper_arm", "left_lower_arm", person), c.minDelta, c.maxDelta), c.hasBone))
      && (var c := rig.rightArm;
          jobs[5] == Job("right_lower_arm", c.bindZ + Clamp(GetRelativeRotation("right_upper_arm", "right_lower_arm", person), c.minDelta, c.maxDelta), c.hasBone))
  {
  }

  /**
   * What a calibrated frame leaves in the smoothing map: each assigned bone's
   * key holds its own smoothed value, computed from the map as it was before
   * the frame; every other key keeps its entry, or its absence.
   */
  lemma FrameResultAt(cache: map<string, real>, rig: Rig, person: PersonData, alpha: real, k: string)
    ensures var jobs, after := FrameJobs(rig, person), SmoothAll(cache, FrameJobs(rig, person), alpha);
      && (forall i :: 0 <= i < |jobs| && jobs[i].active && jobs[i].key == k ==>
            k in after && after[k] == SmoothedValue(cache, k, jobs[i].target, alpha))
      && ((forall i :: 0 <= i < |jobs| && jobs[i].active ==> jobs[i].key != k) ==>
            (k in after <==> k in cache) && (k in cache ==> after[k] == cache[k]))
  {
    FrameJobsDistinct(rig, person);
    SmoothAllAt(cache, FrameJobs(rig, person), alpha, k);
  }

  /** A whole turn added to the tracked angle does not move the `ApplyBone` target. */
  lemma BoneTargetIgnoresTurns(cfg: BoneConfig, z: real, k: int)
    ensures BoneTarget(cfg, z + 360.0 * k as real) == BoneTarget(cfg, z)
  {
    var d := DeltaAngle(cfg.userBindZ, z);
    assert Congruent360(d, z + 360.0 * k as real - cfg.userBindZ) by {
      CongruentShift(z - cfg.userBindZ, z - cfg.userBindZ, k) by {
        assert (z - cfg.userBindZ - (z - cfg.userBindZ)) / 360.0 == 0.0;
      }
      CongruentSym(d, z - cfg.userBindZ);
      CongruentTrans(z - cfg.userBindZ, d, d) by {
        assert (d - d) / 360.0 == 0.0;
      }
      assert (z - cfg.userBindZ) + 360.0 * k as real == z + 360.0 * k as real - cfg.userBindZ;
      CongruentTrans(z + 360.0 * k as real - cfg.userBindZ, z - cfg.userBindZ, d);
      CongruentSym(z + 360.0 * k as real - cfg.userBindZ, d);
    }
    DeltaAngleIsUnique(cfg.userBindZ, z + 360.0 * k as real, d);
  }

  class PuppetController {
    // Inspector settings, which the script itself never changes.
    const receiver: PoseReceiver?
    const personIndex: int
    const rig: Rig
    const smoothing: real
    var baselineMap: map<string, real>
    var calibrated: bool
    var smoothMap: map<string, real>
    /** The angle last written to each bone's local rotation, by bone key. */
    var emitted: map<string, real>

    /** Every smoothed value is the angle its bone shows. */
    ghost predicate Valid()
      reads this
    {
      emitted == smoothMap
    }

    constructor (receiver: PoseReceiver?, personIndex: int, rig: Rig, smoothing: real)
      ensures Valid()
      ensures this.receiver == receiver && this.personIndex == personIndex && this.rig == rig && this.smoothing == smoothing
      ensures !calibrated && baselineMap == map[] && smoothMap == map[]
    {
      this.receiver := receiver;
      this.personIndex := personIndex;
      this.rig := rig;
      this.smoothing := smoothing;
      baselineMap := map[];
      calibrated := false;
      smoothMap := map[];
      emitted := map[];
    }

    /**
     * `GetRotationZ` as the source computes it: a scan of the rotations array
     * that stops at the first matching name; 0 without an array or a match.
     */
    method FindRotationZ(person: PersonData, bone: string) returns (r: real)
      ensures r == GetRotationZ(person, bone)
      ensures person.rotations.Some? && (exists j :: 0 <= j < |person.rotations.value| && person.rotations.value[j].name == bone) ==>
        exists j :: 0 <= j < |person.rotations.value| && person.rotations.value[j].name == bone && r == person.rotations.value[j].z
    {
      if person.rotations.None? {
        return 0.0;
      }
      var rs := person.rotations.value;
      var i := 0;
      while i < |rs|
        invariant 0 <= i <= FirstIndex(rs, bone)
      {
        if rs[i].name == bone {
          return rs[i].z;
        }
        i := i + 1;
      }
      return 0.0;
    }

    /** `Calibrate`: `baselineMap` becomes exactly the ten listed bones' angles, and `calibrated` is set. */
    method Calibrate(person: PersonData)
      modifies this`baselineMap, this`calibrated
      ensures baselineMap == Baseline(person)
      ensures calibrated
    {
      baselineMap := map[];
      var i := 0;
      while i < |CalibrationBones|
        invariant 0 <= i <= |CalibrationBones|
        invariant baselineMap == map b | b in CalibrationBones[..i] :: GetRotationZ(person, b)
      {
        var b := CalibrationBones[i];
        var z := FindRotationZ(person, b);
        baselineMap := baselineMap[b := z];
        assert CalibrationBones[..i + 1] == CalibrationBones[..i] + [b];
        i := i + 1;
      }
      assert CalibrationBones[..i] == CalibrationBones;
      calibrated := true;
    }

    /** `Smooth`: seeds a new key with the target, then writes the `LerpAngle` step to that key alone. */
    method Smooth(key: string, target: real) returns (r: real)
      modifies this`smoothMap
      ensures r == SmoothedValue(old(smoothMap), key, target, 1.0 - smoothing)
      ensures smoothMap == old(smoothMap)[key := r]
    {
      if key !in smoothMap {
        smoothMap := smoothMap[key := target];
      }
      smoothMap := smoothMap[key := LerpAngle(smoothMap[key], target, 1.0 - smoothing)];
      r := smoothMap[key];
    }

    /** `ApplyBone`: nothing happens without a bone; otherwise its key is smoothed towards `BoneTarget` and shown. */
    method ApplyBone(cfg: BoneConfig, key: string, pythonZ: real)
      requires Valid()
      modifies this`smoothMap, this`emitted
      ensures Valid()
      ensures smoothMap == Step(old(smoothMap), AbsoluteJob(cfg, key, pythonZ), 1.0 - smoothing)
    {
      if !cfg.hasBone {
        return;
      }
      var delta := DeltaAngle(cfg.userBindZ, pythonZ);
      var clamped := Clamp(delta, cfg.minDelta, cfg.maxDelta);
      var finalZ := cfg.bindZ + clamped;
      var z := Smooth(key, finalZ);
      emitted := emitted[key := z];
    }

    /** `ApplyBoneRelative`: as `ApplyBone`, with the negated input clamped directly. */
    method ApplyBoneRelative(cfg: BoneConfig, key: string, relativeZ: real)
      requires Valid()
      modifies this`smoothMap, this`emitted
      ensures Valid()
      ensures smoothMap == Step(old(smoothMap), RelativeJob(cfg, key, relativeZ), 1.0 - smoothing)
    {
      if !cfg.hasBone {
        return;
      }
      var negated := -relativeZ;
      var clamped := Clamp(negated, cfg.minDelta, cfg.maxDelta);
      var finalZ := cfg.bindZ + clamped;
      var z := Smooth(key, finalZ);
      emitted := emitted[key := z];
    }

    /**
     * `LateUpdate`: without a receiver or a person nothing changes; the first
     * frame with a person only calibrates; every later one smooths the ten
     * bones towards their targets. Calibration is never undone.
     */
    method LateUpdate()
      requires Valid()
      modifies this`baselineMap, this`calibrated, this`smoothMap, this`emitted
      ensures Valid()
      ensures old(calibrated) ==> calibrated
      ensures receiver == null || receiver.GetPerson(personIndex).None? ==>
        baselineMap == old(baselineMap) && calibrated == old(calibrated) && smoothMap == old(smoothMap)
      ensures receiver != null && receiver.GetPerson(personIndex).Some? && !old(calibrated) ==>
        calibrated && baselineMap == Baseline(receiver.GetPerson(personIndex).value) && smoothMap == old(smoothMap)
      ensures receiver != null && receiver.GetPerson(personIndex).Some? && old(calibrated) ==>
        baselineMap == old(baselineMap) &&
        smoothMap == SmoothAll(old(smoothMap), FrameJobs(rig, receiver.GetPerson(personIndex).value), 1.0 - smoothing)
    {
      if receiver == null {
        return;
      }
      var found := receiver.GetPerson(personIndex);
      if found.None? {
        return;
      }
      var person := found.value;
      if !calibrated {
        Calibrate(person);
        return;
      }
      ghost var start := smoothMap;
      ghost var alpha := 1.0 - smoothing;
      ApplyTorsoAndHead(person);
      ApplyLeftArm(person);
      ApplyRightArm(person);
      ApplyLegs(person);
      SmoothAllAppend(start, TorsoHeadJobs(rig, person), LeftArmJobs(rig, person), alpha);
      SmoothAllAppend(start, TorsoHeadJobs(rig, person) + LeftArmJobs(rig, person), RightArmJobs(rig, person), alpha);
      SmoothAllAppend(start, TorsoHeadJobs(rig, person) + LeftArmJobs(rig, person) + RightArmJobs(rig, person), LegJobs(rig, person), alpha);
    }

    /** The torso and head part of a calibrated `LateUpdate`. */
    method ApplyTorsoAndHead(person: PersonData)
      requires Valid()
      modifies this`smoothMap, this`emitted
      ensures Valid()
      ensures smoothMap == SmoothAll(old(smoothMap), TorsoHeadJobs(rig, person), 1.0 - smoothing)
    {
      ghost var jobs, alpha, start := TorsoHeadJobs(rig, person), 1.0 - smoothing, smoothMap;
      var torsoWorld := FindRotationZ(person, "torso");
      var torsoRel := DeltaAngle(rig.lowerBody.userBindZ, torsoWorld);
      torsoRel := torsoRel * -2.0;
      assert jobs[0] == RelativeJob(rig.lowerBody, "torso", torsoRel);
      ApplyBoneRelative(rig.lowerBody, "torso", torsoRel);
      SmoothPrefixNext(start, jobs, 0, alpha);
      assert smoothMap == SmoothPrefix(start, jobs, 1, alpha);
      var headZ := FindRotationZ(person, "head");
      assert jobs[1] == AbsoluteJob(rig.head, "head", headZ);
      ApplyBone(rig.head, "head", headZ);
      SmoothPrefixNext(start, jobs, 1, alpha);
    }

    /** The left arm part of a calibrated `LateUpdate`. */
    method ApplyLeftArm(person: PersonData)
      requires Valid()
      modifies this`smoothMap, this`emitted
      ensures Valid()
      ensures smoothMap == SmoothAll(old(smoothMap), LeftArmJobs(rig, person), 1.0 - smoothing)
    {
      ghost var jobs, alpha, start := LeftArmJobs(rig, person), 1.0 - smoothing, smoothMap;
      var lUpper := FindRotationZ(person, "left_upper_arm");
      var lLower := FindRotationZ(person, "left_lower_arm");
      assert jobs[0] == AbsoluteJob(rig.leftShoulder, "left_upper_arm", lUpper);
      ApplyBone(rig.leftShoulder, "left_upper_arm", lUpper);
      SmoothPrefixNext(start, jobs, 0, alpha);
      assert smoothMap == SmoothPrefix(start, jobs, 1, alpha);
      var lLowerRel := -DeltaAngle(lUpper, lLower);
      assert jobs[1] == RelativeJob(rig.leftArm, "left_lower_arm", lLowerRel);
      ApplyBoneRelative(rig.leftArm, "left_lower_arm", lLowerRel);
      SmoothPrefixNext(start, jobs, 1, alpha);
    }

    /** The right arm part of a calibrated `LateUpdate`. */
    method ApplyRightArm(person: PersonData)
      requires Valid()
      modifies this`smoothMap, this`emitted
      ensures Valid()
      ensures smoothMap == SmoothAll(old(smoothMap), RightArmJobs(rig, person), 1.0 - smoothing)
    {
      ghost var jobs, alpha, start := RightArmJobs(rig, person), 1.0 - smoothing, smoothMap;
      var rUpper := FindRotationZ(person, "right_upper_arm");
      var rLower := FindRotationZ(person, "right_lower_arm");
      assert jobs[0] == AbsoluteJob(rig.rightShoulder, "right_upper_arm", rUpper);
      ApplyBone(rig.rightShoulder, "right_upper_arm", rUpper);
      SmoothPrefixNext(start, jobs, 0, alpha);
      assert smoothMap == SmoothPrefix(start, jobs, 1, alpha);
      var rLowerRel := -DeltaAngle(rUpper, rLower);
      assert jobs[1] == RelativeJob(rig.rightArm, "right_lower_arm", rLowerRel);
      ApplyBoneRelative(rig.rightArm, "right_lower_arm", rLowerRel);
      SmoothPrefixNext(start, jobs, 1, alpha);
    }

    /** The leg part of a calibrated `LateUpdate`. */
    method ApplyLegs(person: PersonData)
      requires Valid()
      modifies this`smoothMap, this`emitted
      ensures Valid()
      ensures smoothMap == SmoothAll(old(smoothMap), LegJobs(rig, person), 1.0 - smoothing)
    {
      ghost var jobs, alpha, start := LegJobs(rig, person), 1.0 - smoothing, smoothMap;
      var leftThighZ := FindRotationZ(person, "left_thigh");
      assert jobs[0] == AbsoluteJob(rig.leftThigh, "left_thigh", leftThighZ);
      ApplyBone(rig.leftThigh, "left_thigh", leftThighZ);
      SmoothPrefixNext(start, jobs, 0, alpha);
      assert smoothMap == SmoothPrefix(start, jobs, 1, alpha);
      var leftLegZ := FindRotationZ(person, "left_leg");
      assert jobs[1] == AbsoluteJob(rig.leftLeg, "left_leg", leftLegZ);
      ApplyBone(rig.leftLeg, "left_leg", leftLegZ);
      SmoothPrefixNext(start, jobs, 1, alpha);
      assert smoothMap == SmoothPrefix(start, jobs, 2, alpha);
      var rightThighZ := FindRotationZ(person, "right_thigh");
      assert jobs[2] == AbsoluteJob(rig.rightThigh, "right_thigh", rightThighZ);
      ApplyBone(rig.rightThigh, "right_thigh", rightThighZ);
      SmoothPrefixNext(start, jobs, 2, alpha);
      assert smoothMap == SmoothPrefix(start, jobs, 3, alpha);
      var rightLegZ := FindRotationZ(person, "right_leg");
      assert jobs[3] == AbsoluteJob(rig.rightLeg, "right_leg", rightLegZ);
      ApplyBone(rig.rightLeg, "right_leg", rightLegZ);
      SmoothPrefixNext(start, jobs, 3, alpha);
    }
  }
}
