# OpenRocket Animator — trajectory-to-keyframe conversion and camera placement, in Dafny

This project models the algorithmic core of the OpenRocket Animator Blender
add-on: the operator that turns an OpenRocket CSV trajectory export into
keyframes on the active object (`ORA_OT_AnimateFromCSV.execute`), in both
versions of the add-on, and the overhead-camera geometry shared by
`ORA_OT_AddRocketCamera` and `ORA_OT_UpdateRocketCamera`.

The conversion works on the file's lines, already read. It runs in three steps:

1. **Header scan.** Look through the leading comment lines (`#` after any
   whitespace). The last comment line with a comma is the header: its `#`s
   and surrounding whitespace are removed and it is split on commas. Data
   starts at the first line that is not a comment.
2. **Column lookup.** Each logical column ("Time", "Position East",
   "Position North", "Altitude" and, with rotation on, "Roll rate") maps
   to the first header field that contains its name as a substring.
3. **Row loop.** Each data row is converted. It is skipped if a field is
   missing or does not convert, or if a position is NaN. Its frame is
   `round(t * fps) + offset`. The row is keyed or not according to the
   version's decimation rule. The roll rate is integrated into a
   Z rotation.

The run ends by setting the scene's frame range to `0 .. max_frame`.

Files:

- `text.dfy` (module `Text`): the Python string operations the importer
  uses. These are `strip`, `lstrip('#')`, `split(',')` and `in` on strings.
- `trajectory.dfy` (module `Trajectory`): the header scan, as a
  specification function and as the imperative loop (`ScanHeader`). Also
  the column lookup, the per-row conversion, and the host objects (the
  animated object and its keyframes, and the scene's frame range).
- `keyframes.dfy` (module `Keyframes`): what both row loops share.
  - The loop's `Context`: columns, settings, `float()` and `round(t * fps)`.
  - The degree-to-radian factor.
  - The operator's `Outcome`.
  - Views of the keyframe log: the location channel, the track of valid
    rows, and the last rotation angle.
- `animator.dfy` (module `Animator`): the current row loop
  (assets/ORA2.1.py). It forces the first accepted row and moves
  `prev_time` even on a NaN roll rate. The loop is a function
  (`Step`/`Replay`), the operator is a function (`Convert`), and both are
  also imperative methods (`KeyRow`, `KeyRows`, `AnimateFromCsv`) proved
  against those functions.
- `alpha.dfy` (module `AlphaAnimator`): the alpha row loop
  (assets/ORA_alpha_00.py). It uses pure `frame % step` decimation and
  moves `prev_time` only on a numeric roll rate. The file ends with lemmas
  that compare the two versions.
- `camera.dfy` (module `CameraPlacer`): the camera placement over the
  rocket's local bounding box. `CameraObject.ApplyPlacement` writes a
  placement to a camera. The two camera operators are module-level methods
  (`AddRocketCamera`, `UpdateRocketCamera`) that take the camera and the
  rocket as arguments.

Environment inputs are parameters:

- Python's `float()` is `parse: string -> Option<Float>`. A `Float` is a
  number or NaN, and `None` means `float()` raised.
- `round(t * scene.render.fps)` is `quantize: real -> int`. Python rounds
  half to even, so the model makes no claim about the rounding rule.
- The active object is `obj`, and `bpy.data.objects.get(...)` results are
  `rocket`/`camera` arguments that may be null.
- The keyframe sink is the object's `keys`. It is the sequence of
  `keyframe_insert` calls in order: a location key, or a key on
  component 2 (Z) of `rotation_euler`.

Python's `%` and Dafny's `%` agree when the divisor is positive.
`keyframe_step` has a minimum of 1 (assets/ORA2.1.py:43-49). So the
emission test is written with Dafny's `%`, and `Context.Valid()` requires a
step of at least 1.

Points where the code's behaviour may be unexpected:

- A position that is infinite is not discarded. The code tests only for
  NaN (assets/ORA2.1.py:206). Infinities are outside the model (see below).
- The current version sets `prev_time = t` on every keyed row that has a
  roll column and whose roll field converted, even when the rate is NaN
  (assets/ORA2.1.py:222). Only the alpha version advances it on numeric
  rates alone (assets/ORA_alpha_00.py:163-168).
- The frame rounding is Python's `round`, half to even. It is not half
  away from zero.
- The row loop does not require time to be non-decreasing. Rows are
  processed in file order, whatever their times.

## Model

| member | source | states |
|---|---|---|
| Text.LStripSpec | assets/ORA2.1.py:167 | `lstrip()` keeps a suffix, cuts only whitespace, and leaves no leading whitespace |
| Text.RStripSpec | assets/ORA2.1.py:167 | `rstrip()` keeps a prefix, cuts only whitespace, and leaves no trailing whitespace |
| Text.StripSpec | assets/ORA2.1.py:167 | `strip()` is the slice after the leading whitespace, and everything it cuts on either side is whitespace |
| Text.StripEdges | assets/ORA2.1.py:168 | the result of `strip()` neither starts nor ends with whitespace |
| Text.LStripHashSpec | assets/ORA2.1.py:168 | `lstrip('#')` keeps a suffix, cuts only `#`s, and leaves no leading `#` |
| Text.Split | assets/ORA2.1.py:168 | `split(',')` gives at least one part, and no part contains the separator |
| Text.JoinSplit | assets/ORA2.1.py:168 | joining the parts of a split with the separator gives back the input |
| Text.SplitCount | assets/ORA2.1.py:168 | the number of parts is the number of separators plus one |
| Trajectory.CommentAfterLStrip | assets/ORA2.1.py:167 | the comment test holds exactly when the left-stripped line starts with `#` |
| Trajectory.CommentTestAgrees | assets/ORA2.1.py:167-169 | the comment test holds exactly when `line.strip().startswith('#')` |
| Trajectory.HeaderFieldsJoin | assets/ORA2.1.py:168 | the header has at least one field (so `not header` only means no header line), and its fields joined by commas are the stripped line without its leading `#`s |
| Trajectory.FirstDataFrom | assets/ORA2.1.py:169-171 | the result is the first non-comment line at or after the start, or there is none |
| Trajectory.FirstDataLine | assets/ORA2.1.py:169-171 | `data_start` is the first line that is not a comment, all lines before it are comments, and it is absent exactly when every line is a comment |
| Trajectory.LastHeaderLine | assets/ORA2.1.py:166-168 | the result is a comment line with a comma and no later line in range is one; absent when no line in range is one |
| Trajectory.ScanHeader | assets/ORA2.1.py:165-171 | the header loop yields the fields of the last comment line with a comma before the first data line, and that data line's index |
| Trajectory.FindIndex | assets/ORA2.1.py:179-183 | `find_index` returns the smallest index whose field contains the name, and returns nothing only when no field contains it |
| Trajectory.FindIndexFrom | assets/ORA2.1.py:180-182 | the search from a position returns the first containing field at or after it, or establishes that there is none |
| Trajectory.FindAll | assets/ORA2.1.py:185-189 | the lookups in order either all succeed, each at its `find_index`, or stop at the first name that is missing, after names that were all found |
| Trajectory.ResolveColumns | assets/ORA2.1.py:185-189 | the columns resolve exactly when every required name is found, each at its first match. Roll is looked up only with rotation on, otherwise it is absent. A failure names a required column that is missing |
| Trajectory.ParseRow | assets/ORA2.1.py:201-209 | a row is accepted exactly when time, east, north and altitude are all present and numeric (not NaN), and the sample holds those four values |
| Animator.Convert | assets/ORA2.1.py:165-236 | the run cancels with no header, with a header but no data line, or with a missing required column (which it names), and otherwise finishes |
| Animator.SkippedRow | assets/ORA2.1.py:200-207 | a row that fails conversion, or has a NaN position, leaves the roll angle, `prev_time`, `max_frame`, `first_frame_written` and the keys unchanged |
| Animator.SuppressedRow | assets/ORA2.1.py:211 | an accepted row that fails the decimation test changes nothing |
| Animator.KeyedRowWithoutRoll | assets/ORA2.1.py:211-226 | a keyed row without a roll column appends its location key, raises `max_frame` to its frame and sets `first_frame_written` |
| Animator.RollFieldFailureKeepsLocationOnly | assets/ORA2.1.py:212-230 | if the roll field does not convert, the location key stays, while `first_frame_written`, `max_frame`, the angle and `prev_time` are untouched |
| Animator.KeyedRowWithNaNRate | assets/ORA2.1.py:215-226 | a NaN roll rate adds no rotation key and leaves the angle unchanged, but sets `prev_time` to the row's time |
| Animator.KeyedRowWithRate | assets/ORA2.1.py:215-226 | a numeric rate adds `radians(rate * (t - prev_time))` to the angle and keys Z rotation at the row's frame after the location key; `prev_time` becomes `t` |
| Animator.LocationChannelStep | assets/ORA2.1.py:211-213 | a row adds its location key to the location channel exactly when it is accepted and passes the decimation test |
| Animator.KeyRow | assets/ORA2.1.py:200-230 | one iteration of the loop body on the object leaves the loop variables and keys as `Step` says |
| Animator.KeyRows | assets/ORA2.1.py:194-230 | the row loop, run from `data_start` on a cleared object, leaves exactly the keys and `max_frame` of `Replay` over the data lines |
| Animator.AnimateFromCsv | assets/ORA2.1.py:156-238 | the operator cancels without touching anything if the object is missing or is not a mesh/empty, or `Convert` cancels; otherwise the object holds `Convert`'s keys, `frame_start` is 0 and `frame_end` is `max_frame` |
| Animator.EmissionRule | assets/ORA2.1.py:211-213 | an accepted row is keyed iff no row has completed yet or `frame % step == 0`; a keyed row first appends its location key, and an unkeyed one changes nothing |
| Animator.SkippedRowIsInvisible | assets/ORA2.1.py:228-230 | removing a row that fails conversion, wherever it is, does not change the outcome of the loop |
| Animator.AllSkippedIsStart | assets/ORA2.1.py:194-207 | rows that all fail conversion leave the loop in its initial state |
| Animator.FirstAcceptedRowIsKeyed | assets/ORA2.1.py:197-213 | the first accepted row is keyed whatever its frame, and its location key is the first key |
| Animator.StepOneKeysEveryRow | assets/ORA2.1.py:211-213 | with step 1 the location channel is exactly one key per accepted row, in file order, at its frame and position |
| Animator.TimelineBounds | assets/ORA2.1.py:196-232 | `max_frame` is at least 0 and at least every rotation key's frame (every key's, with no roll column), and unless it is 0 some key sits exactly on it |
| Animator.CompletionStep | assets/ORA2.1.py:211-226 | a row sets `first_frame_written` and raises `max_frame` to its frame exactly when it converts, passes the decimation test and has no roll column or a roll field that converts (NaN included); otherwise both stay |
| Animator.FirstWrittenIffCompleted | assets/ORA2.1.py:197-226 | after the loop `first_frame_written` holds exactly when some row's iteration ran to its end |
| Animator.KeyedAfter | assets/ORA2.1.py:211-213 | after any prefix of rows, an accepted row is keyed exactly when no earlier row ran to its end or its frame is a multiple of the step |
| Animator.MaxFrameOfCompletedRows | assets/ORA2.1.py:196-232 | `max_frame` is the maximum of 0 and the frames of the rows whose iteration ran to its end (NaN-rate rows included): at least 0 and each of them, and either 0 or one of them |
| Animator.NoRotationWithoutRollColumn | assets/ORA2.1.py:215 | without a roll column every key is a location key |
| Animator.RotationOffKeysLocationOnly | assets/ORA2.1.py:189-215 | with `animate_rotation` off a finished run inserts only location keys |
| Animator.FinishedTimelineIsNonNegative | assets/ORA2.1.py:196-232 | a finished run sets `frame_end` to 0 or later |
| Animator.RollAngleIsLastKeyed | assets/ORA2.1.py:215-221 | the accumulated roll angle always equals the angle of the last rotation key, or 0 before any |
| Animator.DecimationExample | assets/ORA2.1.py:209-213 | rows at t = 0 and t = 0.1 s at 30 fps with step 5: only frame 0 is keyed and `max_frame` is 0 |
| AlphaAnimator.Convert | assets/ORA_alpha_00.py:111-180 | the alpha run cancels on the same three conditions (no header, no data line, a missing required column) and otherwise finishes |
| AlphaAnimator.SkippedRow | assets/ORA_alpha_00.py:145-152 | a row that fails conversion, or has a NaN position, changes no loop variable and no key |
| AlphaAnimator.OffGridRow | assets/ORA_alpha_00.py:154-156 | an accepted row whose frame is not a multiple of the step changes nothing |
| AlphaAnimator.KeyedRowWithoutRoll | assets/ORA_alpha_00.py:158-170 | a keyed row without a roll column appends its location key and raises `max_frame` to its frame |
| AlphaAnimator.RollFieldFailureKeepsLocationOnly | assets/ORA_alpha_00.py:158-174 | a roll field that does not convert leaves the location key in and `max_frame`, the angle and `prev_time` untouched |
| AlphaAnimator.NaNRateKeepsRollClock | assets/ORA_alpha_00.py:161-170 | a NaN roll rate leaves both the angle and `prev_time` unchanged, while the row still counts in `max_frame` |
| AlphaAnimator.KeyedRowWithRate | assets/ORA_alpha_00.py:161-170 | a numeric rate adds `radians(rate * (t - prev_time))` to the angle, keys Z rotation at the frame, and sets `prev_time` to `t` |
| AlphaAnimator.KeysOfStep | assets/ORA_alpha_00.py:154-168 | a row appends nothing when skipped or off the grid; otherwise its location key, then at most one rotation key at the same frame carrying the new angle |
| AlphaAnimator.KeyRow | assets/ORA_alpha_00.py:145-174 | one iteration of the alpha loop body leaves the loop variables and keys as `Step` says |
| AlphaAnimator.KeyRows | assets/ORA_alpha_00.py:140-174 | the alpha row loop leaves exactly the keys and `max_frame` of `Replay` over the data lines |
| AlphaAnimator.AnimateFromCsv | assets/ORA_alpha_00.py:102-182 | the alpha operator cancels without touching anything on a missing or wrong-kind object or a cancelled `Convert`; otherwise the keys are `Convert`'s and the frame range is `0 .. max_frame` |
| AlphaAnimator.EmissionRule | assets/ORA_alpha_00.py:154-159 | an accepted row is keyed iff `frame % step == 0`, with no forced first row; a keyed row first appends its location key |
| AlphaAnimator.SkippedRowIsInvisible | assets/ORA_alpha_00.py:172-174 | removing a row that fails conversion does not change the outcome of the alpha loop |
| AlphaAnimator.KeysOnGrid | assets/ORA_alpha_00.py:154-170 | every key frame and `max_frame` are multiples of the step, and `max_frame` is at least 0 |
| AlphaAnimator.TimelineBounds | assets/ORA_alpha_00.py:142-176 | `max_frame` is at least 0 and at least every rotation key's frame (every key's, with no roll column), and unless it is 0 some key sits on it |
| AlphaAnimator.CompletionStep | assets/ORA_alpha_00.py:154-170 | a row raises `max_frame` to its frame exactly when it converts, is on the step grid and has no roll column or a roll field that converts (NaN included); otherwise `max_frame` stays |
| AlphaAnimator.MaxFrameOfCompletedRows | assets/ORA_alpha_00.py:142-176 | the alpha `max_frame` is the maximum of 0 and the frames of the rows whose iteration ran to its end (NaN-rate rows included) |
| AlphaAnimator.StepOneKeysEveryRow | assets/ORA_alpha_00.py:154-159 | with step 1 the alpha location channel is exactly one key per accepted row, in order |
| AlphaAnimator.NoRotationWithoutRollColumn | assets/ORA_alpha_00.py:161 | without a roll column the alpha loop inserts only location keys |
| AlphaAnimator.RotationOffKeysLocationOnly | assets/ORA_alpha_00.py:135-161 | with `animate_rotation` off a finished alpha run inserts only location keys |
| AlphaAnimator.FinishedTimelineOnGrid | assets/ORA_alpha_00.py:142-176 | a finished alpha run sets `frame_end` to a non-negative multiple of the step |
| AlphaAnimator.RollAngleIsLastKeyed | assets/ORA_alpha_00.py:161-167 | the alpha roll angle always equals the angle of the last rotation key, or 0 before any |
| AlphaAnimator.LocationChannelsAgreeAtStepOne | assets/ORA_alpha_00.py:154-159 | at step 1 both versions key the same location channel |
| AlphaAnimator.AgreeWithoutRollAtStepOne | assets/ORA_alpha_00.py:154-170 | at step 1 and without a roll column both versions produce the same keys and the same `max_frame` |
| AlphaAnimator.FirstRowForcedOnlyInCurrent | assets/ORA2.1.py:211 | a single accepted row at frame 3 with step 5 is keyed by the current version and not by the alpha one |
| AlphaAnimator.NaNRateDivergence | assets/ORA_alpha_00.py:163-168 | after a NaN-rate row at t = 1 and a row at t = 2 with rate r, the current version's angle is `radians(r * 1)` and the alpha one's is `radians(r * 2)` |
| CameraPlacer.MinOfSpec | assets/ORA2.1.py:322 | `min` over the corners returns one of them and none is smaller |
| CameraPlacer.MaxOfSpec | assets/ORA2.1.py:321 | `max` over the corners returns one of them and none is larger |
| CameraPlacer.ClipStart | assets/ORA2.1.py:337-343 | the clip start is never below 0.001; when adjusting it is the smaller of the candidates at least `abs(offset_z)` and 0.001, that is `abs(offset_z)` or 0.001; otherwise it is 0.1 |
| CameraPlacer.HeightAboveTop | assets/ORA2.1.py:321-331 | the camera's Z minus `offset_z` is the height of the highest corner: no corner is above it and one is on it |
| CameraPlacer.CentredInX | assets/ORA2.1.py:322-329 | the camera's X minus `offset_x` is the midpoint of two corners between which every corner's X lies |
| CameraPlacer.CentredInY | assets/ORA2.1.py:325-330 | the camera's Y is the midpoint of two corners between which every corner's Y lies |
| CameraPlacer.CameraAboveTheBox | assets/ORA2.1.py:331 | with a positive `offset_z` the camera is strictly above every corner |
| CameraPlacer.PlacementFollowsTheBox | assets/ORA2.1.py:320-343 | moving every corner by d moves the camera by d, leaving rotation and clip start unchanged |
| CameraPlacer.DefaultPlacementExample | assets/ORA2.1.py:320-343 | with the default offsets (-0.05, 0.05) and clip adjustment, the box [-1,1]×[-2,2]×[0,3] puts the camera at (-0.05, 0, 3.05) with clip start 0.05 |
| CameraPlacer.ClipFloorExample | assets/ORA2.1.py:337-343 | an offset of 0.0002 clamps to 0.001, an offset of -0.02 gives 0.02, and no adjustment gives 0.1 |
| CameraPlacer.CameraObject.constructor | assets/ORA2.1.py:312-313 | a new camera object has no parent, sits at the origin unrotated, and has the default clip start of 0.1 |
| CameraPlacer.CameraObject.ApplyPlacement | assets/ORA2.1.py:320-343 | steps 3 to 5 set location, rotation and clip start to the placement over the rocket's box, and the parent is unchanged |
| CameraPlacer.AddRocketCamera | assets/ORA2.1.py:298-343 | the operator cancels on an empty name or a missing rocket; otherwise it creates a new camera parented to the rocket and placed over it |
| CameraPlacer.UpdateRocketCamera | assets/ORA2.1.py:368-412 | the update cancels, changing nothing, when the camera or the rocket is missing; otherwise the camera is re-parented to the rocket and placed exactly as in Add |

## Left out

- File access: `os.path.exists`, `bpy.path.abspath` and reading with `latin-1`. The operator starts from the file's lines.
- `csv.reader` quoting, line terminators and embedded separators. A data line is split on every comma.
- The grammar of Python's `float()`. It is the `parse` parameter: it gives a number, NaN, or a failure.
- Infinite values (`inf`, `-inf`). An infinite position would be keyed and an infinite time would make `round` raise. Neither is modelled, because `Float` has only numbers and NaN.
- IEEE double arithmetic: positions, times, angles and geometry are exact `real`s.
- Python's `round` and the scene's frame rate: they are the opaque `quantize` parameter.
- `math.radians` is multiplication by the constant 0.017453292519943295.
- The object property writes `obj.location = ...` and `obj.rotation_euler = (0, 0, angle)` that come before each key. Their values are carried in the keys, and the object's final transform is not modelled. Resetting X and Y rotation to 0 on each rotation key is not modelled either.
- Blender's F-curve behaviour is not modelled: a key inserted at a frame that already has one replaces it. The model keeps the log of inserts instead.
- `animation_data_clear` is modelled as emptying the object's keys. Other animation data on the object is not modelled.
- `report` messages and `print` logging: only finished versus cancelled is modelled.
- The file-not-found cancel at assets/ORA2.1.py:152-154 is part of file access, so it is not modelled.
- Other exceptions caught by the outer `try` are not modelled. The model covers only the unbound `data_start` (no data line) and a missing column.
- Camera creation and linking, the Track-To constraint and its update, making the camera active, and selecting it are thin host calls. `CameraObject` holds only parent, location, rotation and clip start.
- Camera: a NaN offset (which would give a NaN clip start) is not modelled.
- Camera: `bound_box` is taken to have exactly 8 corners, as Blender guarantees.
- OBJ import, the scale fixer, `ORA_OT_ConvertToLinear`, `ORA_OT_AddCameraNoise`, UI panels, property registration and the reload block are outside the conversion and the camera geometry.
