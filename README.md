# Pose-driven puppet: a Dafny model

This project models the runtime core of a Unity scene in which 2D puppets copy the
pose of people seen by a camera. The camera-side tracker sends one JSON frame per
datagram. In the scene:

- `PoseReceiver` queues the decoded frames on a receive thread. On the main thread it
  keeps the latest frame and the time it arrived.
- `PuppetController` turns each frame's per-bone angles into bone rotations.
  - On the first frame it records a per-bone baseline.
  - It measures each angle against a hand-entered user bind angle, takes the shortest
    turn, clamps it and adds it to the bone's bind angle.
  - It smooths every bone through a per-key cache using `Mathf.LerpAngle`.
  - The torso is driven by −2 times its shortest turn from the user bind angle, fed
    through the relative path, which negates it again. The two forearms are driven
    relative to their upper arms.
- `AnglePuppetController` is a variant that works from raw 2D landmarks.
  - It builds a name → position lookup and requires the four core joints.
  - It computes ten angles from landmark directions. They drive eleven bones: the
    torso angle drives both the upper and the lower body.
  - On the first usable pose it captures a neutral pose.
  - Each bone then gets its rest angle plus the intensity-scaled change from neutral,
    smoothed through the same kind of cache.
- `PuppetRootMover` slides a puppet's root. While tracking is alive it moves towards
  the person's normalised horizontal position inside the scene bounds. Otherwise it
  moves to an off-screen point.
- `BackgroundConfigLoader` reads a `key=value` config file. It finds the background
  entry and turns a local path into a `file:///` URL. A URL starting with `http` is
  used as it is.

Layout, one module per file:

| file | module | models |
|---|---|---|
| `wrappers.dfy` | `Wrappers` | the `Option` datatype (a C# null reference is `None`) |
| `unity_math.dfy` | `UnityMath` | `Mathf.Clamp`, `Clamp01`, `Repeat`, `DeltaAngle`, `LerpAngle`, `Lerp`, `Vector3.Lerp` over reals |
| `pose_receiver.dfy` | `PoseReceiving` | the frame records and the `PoseReceiver` class |
| `angle_smoothing.dfy` | `AngleSmoothing` | the smoothing cache that both controllers share, as a fold of per-bone requests |
| `puppet_controller.dfy` | `PuppetControl` | `BoneConfig`, the calibration and the `PuppetController` class |
| `angle_puppet_controller.dfy` | `AnglePuppet` | landmark lookup, body angles and the `AnglePuppetController` class |
| `root_mover.dfy` | `RootMover` | the target and the step of `PuppetRootMover` |
| `background_config.dfy` | `BackgroundConfig` | `Trim`, `Split`, the config-line parser and URL resolution |

The two controllers write bone rotations into Unity transforms. The model instead
records what each controller emits in a field, `emitted`. Its invariant says the
transforms show exactly the smoothing cache.

A frame's smoothing is stated as `SmoothAll(cache, jobs, alpha)`. Here `jobs` is the
frame's list of `(key, target, assigned)` requests, in the order the source issues
them. Each controller's `LateUpdate` is proved equal to that fold. Separate lemmas state
what the fold yields for each bone.

## Model

| member | source | states |
|---|---|---|
| `UnityMath.Clamp` | Assets/Scripts/PuppetController.cs:68 | the clamped delta lies in `[min, max]`: it is `min` below the range, `max` above it, and the delta itself when already inside |
| `UnityMath.DeltaAngle` | Assets/Scripts/PuppetController.cs:65-66 | the shortest signed turn lies in (−180, 180] and is congruent to `target − current` modulo 360 |
| `UnityMath.DeltaAngleIsUnique` | Assets/Scripts/PuppetController.cs:64-66 | any value in (−180, 180] congruent to `target − current` is the `DeltaAngle`, so the turn is well defined |
| `UnityMath.DeltaAngleAcrossWrap` | Assets/Scripts/PuppetController.cs:65-66 | going from 179° to −179° is a 2° turn, not a 358° jump |
| `UnityMath.Repeat360` | Assets/Scripts/PuppetController.cs:85-89 | the wrapped angle lies in [0, 360) and is congruent to its input |
| `UnityMath.LerpAngleFixed` | Assets/Scripts/PuppetController.cs:82-89 | blending an angle towards itself leaves it unchanged, so a first-seen key keeps its target |
| `UnityMath.LerpAngleContracts` | Assets/Scripts/PuppetController.cs:85-89 | one `LerpAngle` step shrinks the shortest turn to the target by exactly `1 − Clamp01(t)` |
| `UnityMath.LerpBetween` | Assets/Scripts/PuppetRootMover.cs:37 | `Mathf.Lerp` stays between its end points |
| `UnityMath.Clamp01` | Assets/Scripts/PuppetController.cs:85-89 | the blend factor `LerpAngle` applies (here `1 − smoothing`) lies in [0, 1] and is the factor itself when already inside |
| `UnityMath.LerpAngle` | Assets/Scripts/PuppetController.cs:85-89 | `Mathf.LerpAngle`: the start moved by `Clamp01(t)` of the shortest turn; `LerpAngleFixed` and `LerpAngleContracts` state its properties |
| `UnityMath.Lerp` | Assets/Scripts/PuppetRootMover.cs:37 | `Mathf.Lerp` with the factor clamped to [0, 1]; `LerpBetween` and `LerpEnds` state its properties |
| `UnityMath.Lerp3` | Assets/Scripts/PuppetRootMover.cs:48-52 | `Vector3.Lerp`, coordinate by coordinate; `Lerp3Between` states its property |
| `UnityMath.LerpEnds` | Assets/Scripts/PuppetRootMover.cs:48-52 | a blend factor of 0 or less keeps the start, and 1 or more reaches the end |
| `UnityMath.Lerp3Between` | Assets/Scripts/PuppetRootMover.cs:48-52 | `Vector3.Lerp` keeps each coordinate between the two end points |
| `PoseReceiving.Accepted` | Assets/Scripts/PoseReceiver.cs:93-97 | every decoded frame with a `people` array is enqueued, every enqueued frame came from such a message, and never more frames than messages |
| `PoseReceiving.Drained` | Assets/Scripts/PoseReceiver.cs:70-74 | the dequeue loop, each dequeued frame overwriting the latest one; `DrainedIsLast` and `DrainedAppend` state what it yields |
| `PoseReceiving.DrainedIsLast` | Assets/Scripts/PoseReceiver.cs:70-74 | draining a non-empty queue leaves its last frame as the latest frame |
| `PoseReceiving.DrainedAppend` | Assets/Scripts/PoseReceiver.cs:70-74 | draining two queues one after the other equals draining their concatenation |
| `PoseReceiving.PersonAt` | Assets/Scripts/PoseReceiver.cs:106-115 | a person is returned exactly when a frame with people exists and the index is in range |
| `PoseReceiving.PoseReceiver.constructor` | Assets/Scripts/PoseReceiver.cs:43-50 | a new receiver has an empty queue, no frame, receive time 0 and is not running |
| `PoseReceiving.PoseReceiver.Start` | Assets/Scripts/PoseReceiver.cs:52-64 | starting sets the running flag and nothing else |
| `PoseReceiving.PoseReceiver.OnDestroy` | Assets/Scripts/PoseReceiver.cs:117-122 | destroying clears the running flag and nothing else |
| `PoseReceiving.PoseReceiver.Receive` | Assets/Scripts/PoseReceiver.cs:86-102 | one message appends its frame to the queue when admitted, and otherwise leaves the queue alone (errors are swallowed) |
| `PoseReceiving.PoseReceiver.ReceiveLoop` | Assets/Scripts/PoseReceiver.cs:80-104 | the queue grows by exactly the admitted frames of the inbox, in order, while running, and by nothing when stopped |
| `PoseReceiving.PoseReceiver.Update` | Assets/Scripts/PoseReceiver.cs:66-78 | the queue is emptied, the latest frame becomes the last queued one (or stays), and the receive time moves to `now` only when a frame arrived |
| `PoseReceiving.PoseReceiver.GetPerson` | Assets/Scripts/PoseReceiver.cs:106-115 | returns the indexed person exactly when there is a frame with people and `0 <= index < length` |
| `AngleSmoothing.SmoothedValue` | Assets/Scripts/PuppetController.cs:80-90 | a key not yet in the cache is seeded with its target, so its first smoothed value is the target |
| `AngleSmoothing.SmoothedValueContracts` | Assets/Scripts/AnglePuppetController.cs:240-244 | each smoothing step closes the fraction `Clamp01(alpha)` of the remaining shortest turn to the target |
| `AngleSmoothing.Step` | Assets/Scripts/AnglePuppetController.cs:236-247 | one request adds or updates only its own key, and an unassigned bone leaves the cache untouched |
| `AngleSmoothing.SmoothPrefixOfPrefix` | Assets/Scripts/PuppetController.cs:130-193 | appending later requests does not change the cache after an earlier prefix |
| `AngleSmoothing.SmoothAllAppend` | Assets/Scripts/PuppetController.cs:130-193 | smoothing a frame section by section equals smoothing the whole frame |
| `AngleSmoothing.SmoothPrefixAt` | Assets/Scripts/AnglePuppetController.cs:170-227 | after a prefix of requests with distinct keys, each key holds its own smoothed value or its old cache entry |
| `AngleSmoothing.SmoothAllAt` | Assets/Scripts/AnglePuppetController.cs:170-227 | with distinct keys, each bone's final value depends only on its own request and its own old cache entry |
| `PuppetControl.FirstIndex` | Assets/Scripts/PuppetController.cs:106-108 | the search stops at the first rotation with the requested name |
| `PuppetControl.FirstZ` | Assets/Scripts/PuppetController.cs:106-110 | the scan over the rotations array gives the `z` of the first entry with the name, or 0 when none has it |
| `PuppetControl.GetRotationZ` | Assets/Scripts/PuppetController.cs:102-111 | a null rotation array or a missing bone gives 0; otherwise the `z` of the first entry with that name |
| `PuppetControl.GetRelativeRotation` | Assets/Scripts/PuppetController.cs:93-100 | the child's turn from the parent lies in (−180, 180] and is congruent to child − parent |
| `PuppetControl.Baseline` | Assets/Scripts/PuppetController.cs:41-58 | the baseline holds exactly the ten calibration bones, each with its `GetRotationZ` angle |
| `PuppetControl.BoneTarget` | Assets/Scripts/PuppetController.cs:60-70 | the final angle lies within the bind angle plus the delta bounds, and it is bind + delta when the delta is within bounds |
| `PuppetControl.RelativeTarget` | Assets/Scripts/PuppetController.cs:113-122 | the negated relative angle is clamped the same way and added to the bind angle |
| `PuppetControl.BoneTargetIgnoresTurns` | Assets/Scripts/PuppetController.cs:64-70 | adding whole turns to the tracked angle does not change the bone's target |
| `PuppetControl.FrameJobsDistinct` | Assets/Scripts/PuppetController.cs:143-192 | a frame issues exactly ten requests, one per calibration bone in that order, with distinct keys |
| `PuppetControl.FrameJobsShape` | Assets/Scripts/PuppetController.cs:143-176 | the torso target is the doubled turn from the user bind angle, and each forearm follows the turn from its upper arm |
| `PuppetControl.FrameResultAt` | Assets/Scripts/PuppetController.cs:130-193 | after a frame, each bone's cached angle is its own smoothed target if assigned, and otherwise its old entry |
| `PuppetControl.PuppetController.constructor` | Assets/Scripts/PuppetController.cs:37-39 | a new controller is uncalibrated with empty baseline and smoothing maps |
| `PuppetControl.PuppetController.FindRotationZ` | Assets/Scripts/PuppetController.cs:102-111 | the loop returns `GetRotationZ`, and returns a matching entry's angle whenever one exists |
| `PuppetControl.PuppetController.Calibrate` | Assets/Scripts/PuppetController.cs:41-58 | the baseline is rebuilt as `Baseline(person)` and the controller is calibrated |
| `PuppetControl.PuppetController.Smooth` | Assets/Scripts/PuppetController.cs:80-91 | returns the smoothed value and stores it under the key, with every other key unchanged |
| `PuppetControl.PuppetController.ApplyBone` | Assets/Scripts/PuppetController.cs:60-76 | the cache takes one absolute step, or none for an unassigned bone, and the bone shows the cache |
| `PuppetControl.PuppetController.ApplyBoneRelative` | Assets/Scripts/PuppetController.cs:113-128 | the cache takes one relative step, or none for an unassigned bone, and the bone shows the cache |
| `PuppetControl.PuppetController.ApplyTorsoAndHead` | Assets/Scripts/PuppetController.cs:143-156 | the cache becomes the fold of the torso and head requests over the old cache |
| `PuppetControl.PuppetController.ApplyLeftArm` | Assets/Scripts/PuppetController.cs:158-166 | the cache becomes the fold of the left upper-arm and forearm requests over the old cache |
| `PuppetControl.PuppetController.ApplyRightArm` | Assets/Scripts/PuppetController.cs:169-176 | the cache becomes the fold of the right upper-arm and forearm requests over the old cache |
| `PuppetControl.PuppetController.ApplyLegs` | Assets/Scripts/PuppetController.cs:178-192 | the cache becomes the fold of the four leg requests over the old cache |
| `PuppetControl.PuppetController.LateUpdate` | Assets/Scripts/PuppetController.cs:130-193 | with no receiver or no person nothing changes; the first person frame only calibrates; later frames smooth all ten bones in source order |
| `AnglePuppet.Lookup` | Assets/Scripts/AnglePuppetController.cs:106-111 | the lookup's keys are exactly the landmark names |
| `AnglePuppet.LookupLastWins` | Assets/Scripts/AnglePuppetController.cs:108-111 | a name that appears again later is overwritten, so the last landmark with a name wins |
| `AnglePuppet.BuildLookup` | Assets/Scripts/AnglePuppetController.cs:107-111 | the loop builds exactly `Lookup(landmarks)` |
| `AnglePuppet.JointsOf` | Assets/Scripts/AnglePuppetController.cs:129-133 | the nose is used exactly when a "nose" landmark is present |
| `AnglePuppet.AnglesOf` | Assets/Scripts/AnglePuppetController.cs:132-145 | without a nose the head angle equals the torso angle |
| `AnglePuppet.CurrentAngles` | Assets/Scripts/AnglePuppetController.cs:129-145 | without a nose the head angle equals the torso angle |
| `AnglePuppet.LookupTranslate` | Assets/Scripts/AnglePuppetController.cs:107-111 | shifting every landmark shifts every lookup entry and keeps the key set |
| `AnglePuppet.AngleDeg` | Assets/Scripts/AnglePuppetController.cs:230-234 | the direction angle from `a` to `b` is `heading` of the offset `b − a`; `AngleDegTranslate` states its property |
| `AnglePuppet.AngleDegTranslate` | Assets/Scripts/AnglePuppetController.cs:230-234 | a direction angle depends only on the offset between its points |
| `AnglePuppet.AnglesOfShift` | Assets/Scripts/AnglePuppetController.cs:129-145 | shifting all joints by one offset leaves all ten angles, and so all eleven bone targets, unchanged |
| `AnglePuppet.CurrentAnglesIgnoreTranslation` | Assets/Scripts/AnglePuppetController.cs:113-145 | moving the whole body keeps the required joints present and leaves the computed angles unchanged |
| `AnglePuppet.Deltas` | Assets/Scripts/AnglePuppetController.cs:170-227 | each of the ten angles minus its neutral value, by plain subtraction; `ZeroDeltaTargets` and `CalibrationFrameShowsRest` use it |
| `AnglePuppet.BoneAngleTarget` | Assets/Scripts/AnglePuppetController.cs:238 | zero change from neutral or zero intensity gives the rest angle; intensity 1 gives rest + change |
| `AnglePuppet.AngleFrameJobsKeys` | Assets/Scripts/AnglePuppetController.cs:170-227 | a frame issues eleven requests for eleven distinct bone keys, all assigned |
| `AnglePuppet.TorsoTargetsAgree` | Assets/Scripts/AnglePuppetController.cs:170-178 | the upper and lower torso get the same target |
| `AnglePuppet.FramePreservesTorsoPair` | Assets/Scripts/AnglePuppetController.cs:170-178 | if the two torso halves agree before a frame, they still agree after it |
| `AnglePuppet.RestPose` | Assets/Scripts/AnglePuppetController.cs:170-227 | the rest pose names exactly the eleven bone keys |
| `AnglePuppet.ZeroDeltaTargets` | Assets/Scripts/AnglePuppetController.cs:148-163 | measured against itself as neutral, every bone's target is its rest angle |
| `AnglePuppet.CalibrationFrameShowsRest` | Assets/Scripts/AnglePuppetController.cs:148-227 | the frame that captures the neutral pose leaves an empty cache holding exactly the rest pose |
| `AnglePuppet.AnglePuppetController.constructor` | Assets/Scripts/AnglePuppetController.cs:45-95 | a new controller is uncalibrated with an empty cache and the given rest angles |
| `AnglePuppet.AnglePuppetController.ApplyBoneAngle` | Assets/Scripts/AnglePuppetController.cs:236-247 | the cache takes one smoothing step towards `rest + delta * intensity`, and the bone shows it |
| `AnglePuppet.AnglePuppetController.LateUpdate` | Assets/Scripts/AnglePuppetController.cs:97-228 | the exit status holds exactly when its input condition does; a non-applied frame changes nothing; the first applied frame captures the neutral pose and shows the rest pose; every applied frame smooths all eleven bones |
| `AnglePuppet.AnglePuppetController.ApplyTorsoAndHead` | Assets/Scripts/AnglePuppetController.cs:170-183 | the cache becomes the fold of the upper torso, lower torso and head requests over the old cache |
| `AnglePuppet.AnglePuppetController.ApplyLeftArm` | Assets/Scripts/AnglePuppetController.cs:185-194 | the cache becomes the fold of the two left-arm requests over the old cache |
| `AnglePuppet.AnglePuppetController.ApplyRightArm` | Assets/Scripts/AnglePuppetController.cs:196-205 | the cache becomes the fold of the two right-arm requests over the old cache |
| `AnglePuppet.AnglePuppetController.ApplyLeftLeg` | Assets/Scripts/AnglePuppetController.cs:207-216 | the cache becomes the fold of the two left-leg requests over the old cache |
| `AnglePuppet.AnglePuppetController.ApplyRightLeg` | Assets/Scripts/AnglePuppetController.cs:218-227 | the cache becomes the fold of the two right-leg requests over the old cache |
| `AnglePuppet.AnglePuppetController.CalibrateAndApply` | Assets/Scripts/AnglePuppetController.cs:147-227 | the neutral pose is captured only on the first calibrated frame, and the frame is applied only once calibrated |
| `AnglePuppet.AnglePuppetController.ApplyFrame` | Assets/Scripts/AnglePuppetController.cs:168-227 | the eleven bone updates equal one fold of the frame's requests, and the bones show the cache |
| `RootMover.TrackingAlive` | Assets/Scripts/PuppetRootMover.cs:29 | tracking is alive while less than `lostTimeout` has passed since the last frame arrived |
| `RootMover.TrackedPerson` | Assets/Scripts/PuppetRootMover.cs:29-31 | a person is tracked exactly when tracking is alive and the receiver returns one |
| `RootMover.RootTarget` | Assets/Scripts/PuppetRootMover.cs:33-46 | the target keeps height and depth; with a person it lies within the scene bounds, at the edges for `center_x` ≤ 0 or ≥ 1; without one it is the left or right off-screen point by index |
| `RootMover.RootStep` | Assets/Scripts/PuppetRootMover.cs:48-52 | the step stays between the position and the target, staying put at rate·dt ≤ 0 and arriving at rate·dt ≥ 1 |
| `RootMover.RootStepKeepsHeight` | Assets/Scripts/PuppetRootMover.cs:38-52 | the root never changes height or depth |
| `RootMover.RootStaysInScene` | Assets/Scripts/PuppetRootMover.cs:33-52 | a root already inside the scene and following a person stays inside it |
| `RootMover.PuppetRootMover.constructor` | Assets/Scripts/PuppetRootMover.cs:5-22 | a new mover keeps its receiver, index and settings, sees no person, has the zero target and starts at the given position |
| `RootMover.PuppetRootMover.Update` | Assets/Scripts/PuppetRootMover.cs:24-53 | with no receiver nothing changes; otherwise `hasPerson`, the target and the new position follow the tracked person |
| `BackgroundConfig.LeadingWhiteSpace` | Assets/Scripts/BackgroundConfigLoader.cs:61 | the characters counted from the start position are all white space, and the next one, if any, is not |
| `BackgroundConfig.TrailingWhiteSpace` | Assets/Scripts/BackgroundConfigLoader.cs:61 | the characters counted back from the end position are all white space, and the one before them, if any, is not |
| `BackgroundConfig.Trim` | Assets/Scripts/BackgroundConfigLoader.cs:61-63 | the result is the slice of the input between its leading and trailing white space, and empty when the input is all white space |
| `BackgroundConfig.TrimShape` | Assets/Scripts/BackgroundConfigLoader.cs:61-63 | trimming yields nothing exactly for a blank input, and a non-empty result neither starts nor ends with white space |
| `BackgroundConfig.TrimIdempotent` | Assets/Scripts/BackgroundConfigLoader.cs:61-63 | trimming twice equals trimming once |
| `BackgroundConfig.Split` | Assets/Scripts/BackgroundConfigLoader.cs:58 | splitting yields at least one part, and no part contains the separator |
| `BackgroundConfig.SplitJoin` | Assets/Scripts/BackgroundConfigLoader.cs:58 | joining the parts with the separator gives back the line |
| `BackgroundConfig.SplitCount` | Assets/Scripts/BackgroundConfigLoader.cs:58-59 | the number of parts is one more than the number of separators, so exactly one '=' makes two parts |
| `BackgroundConfig.UpperAscii` | Assets/Scripts/BackgroundConfigLoader.cs:61 | lower-case ASCII letters map to upper case, and everything else is unchanged |
| `BackgroundConfig.ParseLine` | Assets/Scripts/BackgroundConfigLoader.cs:55-64 | a line yields a value exactly when it is not blank, not a comment, has one '=', and its trimmed left side equals the key ignoring case; the value is the trimmed text after the '=', so it has no '=' |
| `BackgroundConfig.FirstMatch` | Assets/Scripts/BackgroundConfigLoader.cs:53-65 | the index found is the first line the per-line step yields a value for, with none before it, or the end |
| `BackgroundConfig.FirstHitIsFirstMatch` | Assets/Scripts/BackgroundConfigLoader.cs:53-66 | the search returns what the first matching line yields, and nothing when no line matches |
| `BackgroundConfig.FirstHitIgnoresLater` | Assets/Scripts/BackgroundConfigLoader.cs:62-64 | once a line yields a value, appending more lines does not change the result |
| `BackgroundConfig.ParseLineTrimmed` | Assets/Scripts/BackgroundConfigLoader.cs:63 | the value a line yields is already trimmed |
| `BackgroundConfig.ReadBackgroundPath` | Assets/Scripts/BackgroundConfigLoader.cs:51-67 | the search in file order for the first line that yields a value; `ReadBackgroundPathIsFirstMatch`, `ReadBackgroundPathFound` and `ReadBackgroundPathIgnoresLater` state what it returns |
| `BackgroundConfig.ReadBackgroundPathIsFirstMatch` | Assets/Scripts/BackgroundConfigLoader.cs:51-67 | the result is the value of the first matching line, no earlier line matches, and the result is null when none matches |
| `BackgroundConfig.ReadBackgroundPathFound` | Assets/Scripts/BackgroundConfigLoader.cs:51-67 | a value is found exactly when some line matches; it is then the trimmed right side of the first matching line, and so is trimmed and has no '=' |
| `BackgroundConfig.ReadBackgroundPathIgnoresLater` | Assets/Scripts/BackgroundConfigLoader.cs:62-64 | lines after a match do not change the result |
| `BackgroundConfig.CommentSkipped` | Assets/Scripts/BackgroundConfigLoader.cs:56 | a line starting with '#' never yields a value |
| `BackgroundConfig.SplitIndentedHash` | Assets/Scripts/BackgroundConfigLoader.cs:58 | the line " #k=v" splits into " #k" and "v" |
| `BackgroundConfig.TrimIndentedHash` | Assets/Scripts/BackgroundConfigLoader.cs:61-63 | trimming " #k" gives "#k" |
| `BackgroundConfig.IndentedHashIsNoComment` | Assets/Scripts/BackgroundConfigLoader.cs:56-63 | an indented '#' line is not a comment: " #k=v" yields "v" for key "#k" |
| `BackgroundConfig.BackgroundToLoad` | Assets/Scripts/BackgroundConfigLoader.cs:35-48 | a load of the found value is started exactly when the config file exists and the entry is found and not empty; the load itself can still fail (see `ResolveUrl`) |
| `BackgroundConfig.ToForwardSlashes` | Assets/Scripts/BackgroundConfigLoader.cs:81 | every backslash becomes '/', every other character is kept, and no backslash remains |
| `BackgroundConfig.ResolveUrl` | Assets/Scripts/BackgroundConfigLoader.cs:71-82 | an `http` prefix (any case) is used as it is; a missing local file gives nothing; otherwise exactly `"file:///" + ToForwardSlashes(path)`, of length 8 + the path's and with no backslash |
| `BackgroundConfig.WindowsPathUrl` | Assets/Scripts/BackgroundConfigLoader.cs:74-81 | `C:\a` becomes `file:///C:/a`, and `HTTPS://x` is kept even if no such file exists |

## Left out

- The UDP socket, the receive thread, `ConcurrentQueue` and `Thread.Abort` are not modelled. The receive loop is a sequence of already-received messages, and the queue is a `seq`. The interleaving of the two threads is not modelled.
- `JsonUtility.FromJson`, UTF-8 decoding and the raw-JSON log are not modelled. A datagram is its decoded frame or a caught failure.
- `Time.time` and `Time.deltaTime` are parameters. `Debug.Log` and `Debug.LogWarning` are not modelled.
- `float` arithmetic is modelled over `real`, so no rounding is modelled.
- `Mathf.Atan2`, `Vector2.normalized` and `Mathf.Rad2Deg` are the abstract direction function `heading`, applied to the offset between two points. The model proves nothing about `heading`'s range.
- Transforms, `Quaternion.Euler` and `localRotation` are not modelled. A bone's rotation is an entry of the field `emitted`, and an unassigned bone is the `active` flag of its request.
- AnglePuppet rest angles: reading them from `localEulerAngles` in `Start` is not modelled. They are a constructor input.
- `AnglePuppetController` calls `HasCurrentPose` and `GetCurrentPose`. The `PoseReceiver` in this repository does not define them, so the current pose is an input of `LateUpdate`. `None` stands for a missing receiver or a missing pose.
- AnglePuppet bone transforms: `ApplyBoneAngle` updates the cache before it uses the bone, so a null bone throws after the cache write. The model assumes all eleven bones are assigned.
- AnglePuppet missing joints: `lm[...]` throws `KeyNotFoundException` for a missing limb joint. The model returns the `MissingJoint` status and changes nothing, which is what the exception leaves behind.
- Null `PersonData` elements inside `people` are not modelled. A frame's people are values.
- `BackgroundConfig.ParseLine`: the culture-sensitive `StartsWith("#")` is a first-character test.
- `BackgroundConfig.UpperAscii`: `OrdinalIgnoreCase` is modelled for ASCII letters only.
- `File.ReadAllLines`, `File.Exists` and the Desktop path are inputs.
- `UnityWebRequest`, texture and sprite creation, the `Awake` setup and the coroutine's later steps (`BackgroundConfigLoader.cs` past line 82) are not modelled.
- `PuppetDebugger.cs` is not part of this model. It is an editor display aid.
- `PoseReceiving.PoseReceiver.ReceiveLoop`: the loop runs over a finite inbox. It does not model blocking until `running` is cleared by another thread.
