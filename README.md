# Hexapod controller model

A Dafny model of the server core of a six-legged walking robot: the controller
`Control` (Code/Server/Control.py) and the servo driver `Servo` (Code/Server/Servo.py).

The controller keeps six body points (the feet in the body frame) and turns them into
per-leg points (`coordinateTransformation`). It refuses any leg point outside the
reachable shell of 90 to 248 mm (`checkPoint`). Inverse-kinematics angles plus per-leg
calibration offsets become eighteen servo angles clamped to 0..180 (`setLegAngle`).
A dispatcher loop (`condition`) reads the last order and serves one of five commands:

- POSITION shifts the standing body.
- ATTITUDE tilts it by roll, pitch and yaw.
- MOVE walks with a tripod gait ("1") or a wave gait ("2").
- BALANCE enters the self-levelling loop.
- CALIBRATION stores and saves per-leg calibration points.

The servo driver converts an angle into a PCA9685 duty count and routes 32 channels
over two chips.

Modules, one per file:

- `Numeric` (numeric.dfy): `restriction`, `map`/`mapNum`, and Python's `round` and `int` on floats, written out exactly.
- `PointFile` (point_file.dfy): the calibration point file, written by `saveToTxt` and read by `readFromTxt`.
- `Kinematics` (kinematics.dfy): the pure geometry, meaning the workspace gate, angle assembly, calibration offsets, the leg frames, the standing pose and the body rotation.
- `Gait` (gait.dfy): `run`'s schedule, meaning the order parsing, the cadence `F`, the strides, and the frames of both gaits as functions of the step counters.
- `Dispatch` (dispatch.dfy): one pass of `condition` as a transition on the controller's state. A failing `int()` or a bad index raises in the source; here it is the outcome `Crashed`.
- `Control` (control.dfy): the class `Control`, whose fields are the controller's and whose methods update them in place with the source's loops. Each method is proved against its transition in `Dispatch`.
- `Servo` (servo.dfy): the duty formula, the channel routing, and the class `Servo`, which records every `setPWM` write in a log.

Floating-point trigonometry is not modelled. `coordinateToAngle` is a parameter
`ik` that returns whole degrees, and `math.sin`, `math.cos` and `math.pi` are a parameter
`trig`. Coordinates are exact reals, and the lemmas that need a fact about the
trigonometry (sin 0 = 0, cos 0 = 1, cos² + sin² = 1) take it as a precondition.

What the proofs show about the walking schedule, beyond the per-call contracts:

- One tripod cycle returns every leg to where it started when `F` is a multiple of 8 (`Gait.TripodCycleCloses`). At speed 4 (`F` = 100) the lift window of the even legs is one step longer than their lowering window, so every leg ends 8 lift steps (3.2 mm) above its start after each cycle (`Gait.TripodDriftAtSpeedFour`).
- One wave cycle closes when `F` is a multiple of 18 (`Gait.WaveCycleCloses`). At speed 4 (`F` = 140, windows 7/15/23) every leg ends 18 lift steps lower and 10 strides further than it started (`Gait.WaveDriftAtSpeedFour`).
- `timeout` is 0 at start, and the only other write outside the idle guard also sets it to 0. The idle guard (Code/Server/Control.py:140-143) fires only when `timeout` is not 0, so the idle relax never fires. `Dispatch.PassKeeps` and `Dispatch.DriveKeeps` show that the timeout stays 0 over any sequence of orders, the passes of the balancing loop included. Over any such sequence the servos receive only batches of in-range angles, and the body points stay the standing hexagon.
- `relax` (Code/Server/Servo.py:32-36) makes 24 full-off writes: channels 8-15 of chip 0x41 and 0-15 of chip 0x40. Channels 0-7 of chip 0x41 are never written (`Servo.RelaxRegisters`).
- The tripod loop (Code/Server/Control.py:333-367) has seven windows, with boundaries at multiples of `F`/8. The window between 3`F`/8 and 5`F`/8 is twice as long as the others (`Gait.Phase`, `Gait.EvenCycleSums`).
- The point file is opened in text mode, so a file with "\r\n" or "\r" line ends reads like one with "\n" line ends (`PointFile.Newlines`, `PointFile.SaveThenRead`).

## Model

| member | source | states |
|---|---|---|
| Numeric.Restriction | Code/Server/Control.py:238-244 | the result lies in [lo, hi]; it is the input inside the interval, lo below it and hi above it |
| Numeric.RestrictionMonotone | Code/Server/Control.py:238-244 | clamping never reverses the order of two values |
| Numeric.RestrictionReflect | Code/Server/Control.py:238-244 | clamping commutes with reflecting the value across the middle of the interval |
| Numeric.Map | Code/Server/Control.py:246-247 | `map` sends fromLow to toLow and fromHigh to toHigh |
| Numeric.MapAffine | Code/Server/Servo.py:6-7 | `mapNum` is affine: the difference of two outputs is the slope times the difference of the inputs |
| Numeric.RoundHalfEven | Code/Server/Control.py:306-309 | `round` is within 0.5 of its argument, and a tie goes to the even neighbour |
| Numeric.Trunc | Code/Server/Servo.py:26 | `int` on a float truncates toward zero: below the argument for positives, above it for negatives, by less than 1 |
| Numeric.TruncMonotone | Code/Server/Servo.py:26 | truncation never reverses the order of two reals |
| Numeric.TruncDivFloor | Code/Server/Control.py:376-384 | `int(a/d)` is floor division for a non-negative numerator, as the wave gait's `int(F/6)`, `int(F/9)` and `int(F/18)` use it |
| PointFile.ReadFromTxt | Code/Server/Control.py:50-61 | the table read from the text is its parse: line ends read in text mode, lines stripped and split at tabs, every field through `int`, no table when one field fails |
| PointFile.Newlines | Code/Server/Control.py:51-52 | reading in text mode leaves no carriage return: "\r\n" and a lone "\r" become "\n", and the text never grows |
| PointFile.NewlinesPlain | Code/Server/Control.py:51-52 | text without a carriage return reads unchanged |
| PointFile.NewlinesPrefix | Code/Server/Control.py:51-52 | text without a carriage return in front reads as it is, and the rest reads on its own |
| PointFile.LoneCarriageReturn | Code/Server/Control.py:51-52 | a lone "\r" between plain texts reads as a line break |
| PointFile.CrlfReadsAsLf | Code/Server/Control.py:51-52 | a text saved with "\r\n" line ends reads as the same text with "\n" line ends |
| PointFile.SerializeChars | Code/Server/Control.py:63-70 | `saveToTxt` writes no carriage return |
| PointFile.SplitLines | Code/Server/Control.py:52-56 | the first loop of `readFromTxt` gives every line, in order, stripped and split at tabs |
| PointFile.ParseRow | Code/Server/Control.py:58-59 | the inner loop passes every field of a row through `int`, and gives no row when some field is rejected |
| PointFile.SaveToTxt | Code/Server/Control.py:63-70 | the text written is every value followed by a tab, every row by a newline |
| PointFile.SaveThenRead | Code/Server/Control.py:50-70 | reading back a saved table with no empty row gives the same table, also after its line ends are rewritten as "\r\n" |
| PointFile.EmptyRowDoesNotReadBack | Code/Server/Control.py:50-70 | a saved empty row reads back as one empty field, which `int` rejects |
| PointFile.IntToStringRoundTrip | Code/Server/Control.py:59 | `int(str(n)) == n` for every integer |
| PointFile.ParseIntDigits | Code/Server/Control.py:59 | `int` reads a non-empty string of decimal digits as its value, and the same digits after a minus sign as its negation |
| PointFile.ParseFieldsFails | Code/Server/Control.py:57-59 | one field that `int` rejects makes the whole row unreadable |
| PointFile.ParseTableFails | Code/Server/Control.py:57-59 | one unreadable row makes the whole file unreadable |
| Kinematics.CheckPoint | Code/Server/Control.py:129-137 | true exactly when every leg point lies at 90 to 248 mm from the hip, both bounds included |
| Kinematics.AssembleLeg | Code/Server/Control.py:117-123 | every servo angle of a leg lies in 0..180 |
| Kinematics.MirroredSides | Code/Server/Control.py:117-123 | for equal inputs, leg i+3's coxa equals leg i's, and its femur and tibia are 180 minus leg i's |
| Kinematics.AssembleLegExact | Code/Server/Control.py:117-123 | when nothing is clamped, the coxa is the IK angle plus its offset, the femur is 90 minus (legs 0-2) or 90 plus (legs 3-5) the offset femur, and the tibia of legs 3-5 is 180 minus the offset tibia |
| Kinematics.AssembleAll | Code/Server/Control.py:113-123 | six legs of in-range angles |
| Kinematics.Actuate | Code/Server/Control.py:111-128 | a point outside the shell leaves the angles unchanged and sends nothing; otherwise exactly one batch of six in-range legs is sent and becomes `angle` |
| Kinematics.ActuateKeepsSafe | Code/Server/Control.py:111-128 | every batch ever sent holds only angles within 0..180 |
| Kinematics.NominalLegs | Code/Server/Control.py:96 | the calibration pose (140, 0, 0) per leg passes `checkPoint` |
| Kinematics.NominalPointZeroOffset | Code/Server/Control.py:95-109 | a leg whose calibration point is the nominal (140, 0, 0) gets offset zero |
| Kinematics.CalibratedNominalPose | Code/Server/Control.py:95-123 | in the nominal pose each leg receives exactly the angles of its own calibration point |
| Kinematics.CalibrationOffsets | Code/Server/Control.py:95-109 | there are six offsets; `Kinematics.NominalPointZeroOffset` and `Kinematics.CalibratedNominalPose` state what they do |
| Kinematics.Transform | Code/Server/Control.py:230-236 | there are six leg points; `Kinematics.TransformPerLeg` states how each is made |
| Kinematics.StandPose | Code/Server/Control.py:249-258 | there are six feet; `Kinematics.StandPoseIsAbsolute` states where they go |
| Kinematics.PostureBalance | Code/Server/Control.py:260-275 | there are six feet; `Kinematics.LevelPostureIsStanding` gives the level posture |
| Kinematics.TransformPerLeg | Code/Server/Control.py:230-236 | each leg point depends only on its own body point, and its z is the body z minus 14 |
| Kinematics.TransformKeepsReach | Code/Server/Control.py:230-236 | when cos² + sin² = 1, the rotation keeps the horizontal distance from the hip offset |
| Kinematics.StandPoseIsAbsolute | Code/Server/Control.py:249-258 | `posittion` does not accumulate: feet at the hexagon minus (x, y) at height -30 - z, whatever the previous height |
| Kinematics.LevelMatrix | Code/Server/Control.py:260-272 | with sin 0 = 0 and cos 0 = 1 the rotation for (0, 0, 0) is the identity |
| Kinematics.UnrotatedFeet | Code/Server/Control.py:40-46 | the unrotated feet are the standing hexagon at the body height |
| Kinematics.LevelPostureIsStanding | Code/Server/Control.py:260-275 | `postureBalance(0, 0, 0)` is the standing hexagon at the current height |
| Kinematics.ReplayFlushes | Code/Server/Control.py:333-369 | sending frames only appends calls, at most one per frame and exactly one per frame inside the shell |
| Kinematics.ActuateBatches | Code/Server/Control.py:111-128 | one `setLegAngle` appends only in-range six-leg batches |
| Kinematics.ReplayBatches | Code/Server/Control.py:333-369 | a whole run appends only in-range six-leg batches |
| Kinematics.BatchesTrans | Code/Server/Control.py:111-128 | appending in-range batches twice is appending in-range batches |
| Kinematics.BatchesKeepSafe | Code/Server/Control.py:111-128 | a safe call history stays safe under appended batches |
| Gait.TripodCadence | Code/Server/Control.py:306-307 | for gait "1", `F` = 126 - 13 (speed - 2) exactly |
| Gait.WaveCadenceValue | Code/Server/Control.py:308-309 | for any other gait, `F` is within 0.5 of (684 - 63 (speed - 2)) / 4 |
| Gait.CadenceNonZero | Code/Server/Control.py:306-311 | `F` is never 0, so `z = Z/F` and the strides never divide by zero |
| Gait.CadenceRange | Code/Server/Control.py:306-309 | on speeds 2..10 `F` lies in 22..126 (gait "1") or 45..171 and shrinks as the speed grows |
| Gait.RoundMonotone | Code/Server/Control.py:306-309 | `round` never reverses the order of two reals |
| Gait.ParseMove | Code/Server/Control.py:302-317 | a move is parsed exactly when the four numbers parse; x and y are clamped to ±35, and x is 0 whenever the angle is not |
| Gait.StraightStride | Code/Server/Control.py:318-321 | without a turn every leg's stride is (x/F, y/F) |
| Gait.FirstLegMoves | Code/Server/Control.py:335-369 | an even leg's step in each window is a fixed number of strides and lift steps |
| Gait.SecondLegMoves | Code/Server/Control.py:335-369 | likewise for an odd leg after the first window |
| Gait.WindowSum | Code/Server/Control.py:333-369 | inside one window the totals grow by the window's coefficient per step |
| Gait.FirstTrack | Code/Server/Control.py:333-369 | after n steps an even leg has moved by the sums of its coefficients over the windows visited |
| Gait.SecondTrack | Code/Server/Control.py:333-369 | after n steps an odd leg has moved, from the lifted start, by the sums of its coefficients |
| Gait.SecondTrackHeld | Code/Server/Control.py:335-340 | in the first window an odd leg is held at the lifted height and moves 8 strides a step |
| Gait.CycleSum | Code/Server/Control.py:333-369 | a whole cycle's sum is the window lengths times the window coefficients |
| Gait.EvenCycleSums | Code/Server/Control.py:333-369 | for `F` = 8m each window is m steps, and the middle one 2m |
| Gait.EvenCycleTotals | Code/Server/Control.py:333-369 | for `F` = 8m the lift steps and the strides of every leg sum to zero over the cycle |
| Gait.TripodCycleCloses | Code/Server/Control.py:325-370 | for `F` = 8m, even legs end where they started and odd legs end at their start at the lifted height |
| Gait.SpeedFourSums | Code/Server/Control.py:333-369 | at `F` = 100 the windows are 13, 12, 13, 25, 12, 13 and 12 steps long |
| Gait.SpeedFourTotals | Code/Server/Control.py:333-369 | at `F` = 100 every leg gains 8 lift steps over the cycle and its strides cancel |
| Gait.TripodDriftAtSpeedFour | Code/Server/Control.py:325-370 | at `F` = 100 every leg ends 8 lift steps above the closed cycle |
| Gait.TimingOrdered | Code/Server/Control.py:376-384 | the wave windows are `F`/18, `F`/9 and `F`/6, in increasing order |
| Gait.WaveLegMoves | Code/Server/Control.py:377-388 | the visited leg rises, swings or lowers by one window step; every other leg slides back two strides |
| Gait.VisitTrack | Code/Server/Control.py:376-388 | after j steps of a visit each leg has moved by the visit's running totals |
| Gait.WaveTrack | Code/Server/Control.py:375-388 | after i visits each leg has moved by the totals of those visits |
| Gait.WaveTotals | Code/Server/Control.py:375-388 | over the six visits each leg is the visited leg once and slides five times |
| Gait.WaveCycle | Code/Server/Control.py:372-391 | a full wave run moves each leg up by 18 (lift - (visit - swing)) steps and forward by 30 (swing - lift) - 10 visit strides |
| Gait.WaveCycleCloses | Code/Server/Control.py:372-391 | for `F` = 18n every leg ends where it started |
| Gait.WaveDriftAtSpeedFour | Code/Server/Control.py:372-391 | at speed 4 (`F` = 140) every leg ends 18 lift steps lower and 10 strides forward |
| Gait.Phase | Code/Server/Control.py:327-363 | a tripod step falls in one of seven windows, 0..6 |
| Gait.TripodStep | Code/Server/Control.py:334-367 | one tripod step moves all six legs; `Gait.FirstLegMoves` and `Gait.SecondLegMoves` state how |
| Gait.WaveStep | Code/Server/Control.py:377-388 | one wave step moves all six legs; `Gait.WaveLegMoves` states how |
| Gait.Stride | Code/Server/Control.py:318-321 | there is one stride per leg; `Gait.StraightStride` gives it without a turn |
| Gait.RunFrames | Code/Server/Control.py:322-391 | every frame `run` sends holds six points; `Gait.RunFramesEnd` counts them |
| Gait.TripodFramesArePoses | Code/Server/Control.py:333-369 | frame j of a tripod run is the pose after j + 1 steps |
| Gait.RunFramesEnd | Code/Server/Control.py:322-391 | a tripod run has `F` frames and ends at the pose after `F` steps; a wave run has 6 int(`F`/6) frames and ends at the pose after six visits |
| Dispatch.KeywordRow | Code/Server/Control.py:185-221 | the keywords "one" to "six" name table rows 0 to 5 |
| Dispatch.WriteRow | Code/Server/Control.py:185-220 | the row gets the three numbers exactly when all parse; other rows and any later entries are untouched; a bad number stops the writes there |
| Dispatch.Chosen | Code/Server/Control.py:144-180 | each branch is chosen only with the order length it indexes |
| Dispatch.IdleGuard | Code/Server/Control.py:140-143 | the idle guard never enters the balancing loop and keeps the state well formed; `Dispatch.PassKeeps` shows it does nothing while the timeout is 0 |
| Dispatch.PositionBranch | Code/Server/Control.py:144-152 | the POSITION transition keeps the state well formed; what it does is stated by `Dispatch.PositionServed` |
| Dispatch.AttitudeBranch | Code/Server/Control.py:153-163 | the ATTITUDE transition keeps the state well formed; what it does is stated by `Dispatch.AttitudeServed` |
| Dispatch.MoveBranch | Code/Server/Control.py:164-172 | the MOVE transition keeps the state well formed; what it does is stated by `Dispatch.MoveRepeats`, `Dispatch.StopServedOnce` and `Dispatch.OtherGaitStill` |
| Dispatch.BalanceBranch | Code/Server/Control.py:173-179 | the BALANCE transition keeps the state well formed; what it does is stated by `Dispatch.BalanceServed` and `Dispatch.BalanceIgnored` |
| Dispatch.CalibrationBranch | Code/Server/Control.py:180-223 | the CALIBRATION transition keeps the state well formed; what it does is stated by `Dispatch.CalibrationRowServed` and `Dispatch.SaveServed` |
| Dispatch.Serve | Code/Server/Control.py:144-223 | the first matching branch keeps the state well formed |
| Dispatch.Next | Code/Server/Control.py:140-223 | one pass, guard then branch, keeps the state well formed |
| Dispatch.Boot | Code/Server/Control.py:13-48 | the start-up state is well formed; `Dispatch.BootStands` states what it is |
| Dispatch.PositionBranchKeeps | Code/Server/Control.py:144-152 | POSITION sends only in-range batches and keeps the body standing |
| Dispatch.AttitudeBranchKeeps | Code/Server/Control.py:153-163 | ATTITUDE sends only in-range batches and keeps the body standing |
| Dispatch.MoveBranchKeeps | Code/Server/Control.py:164-172 | MOVE sends only in-range batches and keeps the body standing |
| Dispatch.BalanceBranchKeeps | Code/Server/Control.py:173-179 | BALANCE sends only in-range batches and keeps the body standing |
| Dispatch.CalibrationBranchKeeps | Code/Server/Control.py:180-223 | CALIBRATION sends only in-range batches, keeps the body standing and leaves the timeout at 0 |
| Dispatch.PassKeeps | Code/Server/Control.py:140-143 | with the timeout at 0 the idle guard does nothing, and a pass keeps the invariant |
| Dispatch.Balance | Code/Server/Control.py:289-299 | the passes of `imu6050`'s loop keep the height, body, mode, order, table, offsets and timeout, and leave the legs at the last PID posture `postureBalance(r, p, 0)` |
| Dispatch.BalanceKeeps | Code/Server/Control.py:289-299 | the balancing loop sends only in-range batches and keeps the body standing |
| Dispatch.Resume | Code/Server/Control.py:289-292 | the balancing loop ends at an order with a non-empty first field, and the dispatcher serves it; the state stays well formed |
| Dispatch.ResumeKeeps | Code/Server/Control.py:138-223 | the balancing passes and the pass that follows them keep the invariant |
| Dispatch.Drive | Code/Server/Control.py:138-223 | the trace of passes over a sequence of inputs, resuming after the balancing loop, stopping at a crash; the state stays well formed |
| Dispatch.DriveStops | Code/Server/Control.py:138-139 | once a pass crashes, later inputs change nothing |
| Dispatch.DriveKeeps | Code/Server/Control.py:138-223 | over any sequence of orders and balancing passes the timeout stays 0, only in-range batches are sent and the body stays standing |
| Dispatch.PositionServed | Code/Server/Control.py:144-152 | a readable POSITION order stands the robot at the clamped offset, sets mode 1 and clears the order |
| Dispatch.AttitudeServed | Code/Server/Control.py:153-163 | a readable ATTITUDE order clamps roll, pitch and yaw to ±15, poses the feet on the tilted hexagon at the current height, sends that pose (after the current one again when coming from another mode), sets mode 2 and clears the order |
| Dispatch.BalanceServed | Code/Server/Control.py:173-179 | BALANCE 1 clears the order, sets mode 4, sends the level posture at the current height (the standing hexagon for a true sine and cosine) and enters the balancing loop |
| Dispatch.BalanceIgnored | Code/Server/Control.py:173-174 | a BALANCE order whose argument is not "1" changes nothing and stays in place |
| Dispatch.OtherGaitStill | Code/Server/Control.py:164-172 | a MOVE order with a gait other than "1" and "2" and something to do sends no frame: the legs stay, and only the current pose is sent again on entering mode 3 |
| Dispatch.MoveRepeats | Code/Server/Control.py:164-172 | a moving MOVE order is kept, and the next pass runs the same move again in mode 3 |
| Dispatch.StopServedOnce | Code/Server/Control.py:164-167 | a MOVE order with x and y "0" runs once, clears the order and keeps the mode |
| Dispatch.CalibrationRowServed | Code/Server/Control.py:180-223 | a readable row order stores the point, recomputes the offsets and stands in the nominal pose |
| Dispatch.SaveServed | Code/Server/Control.py:221-223 | "save" writes a point file that reads back as the current table |
| Dispatch.BootStands | Code/Server/Control.py:13-48 | after start-up the robot stands, the timeout is 0 and exactly one in-range batch has been sent |
| Dispatch.AnimateSnoc | Code/Server/Control.py:368-369 | each further frame is one more `coordinateTransformation` and `setLegAngle` |
| Dispatch.SetLegAngleKeeps | Code/Server/Control.py:111-128 | `setLegAngle` keeps the dispatcher invariant |
| Dispatch.UpdateKeeps | Code/Server/Control.py:159-161 | a new posture keeps the dispatcher invariant |
| Dispatch.CalibrationKeeps | Code/Server/Control.py:181-183 | recalibrating keeps the dispatcher invariant |
| Dispatch.PositionKeeps | Code/Server/Control.py:249-258 | `posittion` keeps the body on the standing hexagon at its new height |
| Dispatch.AnimateKeeps | Code/Server/Control.py:322-391 | a whole run keeps the dispatcher invariant |
| Dispatch.RelaxKeeps | Code/Server/Control.py:224-228 | `relax(False)` keeps the dispatcher invariant |
| Control.Control.constructor | Code/Server/Control.py:13-48 | the fields after `__init__` are the start-up state: table read, calibrated, standing |
| Control.Control.CheckPoint | Code/Server/Control.py:129-137 | the loop's verdict is the shell test on the current leg points |
| Control.Control.IkAngles | Code/Server/Control.py:113-116 | the first loop of `setLegAngle` gives every leg the IK angles of its leg point |
| Control.Control.ClampAngles | Code/Server/Control.py:117-123 | the second loop adds the offsets, mirrors legs 3-5 and clamps, leaving exactly the in-range angles of `AssembleAll` |
| Control.Control.SetLegAngle | Code/Server/Control.py:111-128 | the two loops leave `angle` and the servo calls as `Actuate` gives them |
| Control.Control.Calibration | Code/Server/Control.py:95-109 | the three loops set the nominal leg points, the raw nominal angles and the offsets |
| Control.Control.SavedPointAngles | Code/Server/Control.py:97-100 | the first loop gives every leg the IK angles of its saved calibration point |
| Control.Control.SubtractNominal | Code/Server/Control.py:106-109 | the last loop subtracts the nominal angles leg by leg, leaving the offsets of `CalibrationOffsets` |
| Control.Control.CoordinateTransformation | Code/Server/Control.py:230-236 | the loop leaves `leg_point` as the per-leg transform of the body points |
| Control.Control.Update | Code/Server/Control.py:159-161 | transform then `setLegAngle`, as one posture update |
| Control.Control.Relax | Code/Server/Control.py:224-228 | `relax(True)` records one switch-off; `relax(False)` is `setLegAngle` |
| Control.Control.Posittion | Code/Server/Control.py:249-258 | the loop moves the body to the new height and stands |
| Control.Control.Imu6050 | Code/Server/Control.py:277-283 | entering balance sends the level posture |
| Control.Control.SavePoints | Code/Server/Control.py:221-222 | the point file becomes the serialised table |
| Control.Control.TripodPoints | Code/Server/Control.py:334-367 | the inner loop over three leg pairs computes one tripod step |
| Control.Control.WavePoints | Code/Server/Control.py:377-387 | the inner loop over six legs computes one wave step |
| Control.Control.SendFrame | Code/Server/Control.py:368-369 | sending one frame extends the run by that frame |
| Control.Control.Tripod | Code/Server/Control.py:325-370 | the `F` steps of the tripod loop send exactly the tripod frames |
| Control.Control.Wave | Code/Server/Control.py:372-391 | the nested visit loops send exactly the wave frames |
| Control.Control.Run | Code/Server/Control.py:302-391 | `run` succeeds exactly when the order parses, and then leaves the state the frames of its gait give |
| Control.Control.ServePosition | Code/Server/Control.py:144-152 | the POSITION branch performs the POSITION transition |
| Control.Control.ServeAttitude | Code/Server/Control.py:153-163 | the ATTITUDE branch performs the ATTITUDE transition |
| Control.Control.ServeMove | Code/Server/Control.py:164-172 | the MOVE branch performs the MOVE transition |
| Control.Control.ServeBalance | Code/Server/Control.py:173-179 | the BALANCE branch performs the BALANCE transition |
| Control.Control.WriteCalibrationRow | Code/Server/Control.py:185-220 | the row writes stop at the first unreadable number, as `WriteRow` says |
| Control.Control.ServeCalibration | Code/Server/Control.py:180-223 | the CALIBRATION branch performs the CALIBRATION transition |
| Control.Control.Guard | Code/Server/Control.py:140-143 | the idle guard fails on an empty order, and otherwise relaxes and re-arms the timeout only when it is set, more than 10 s old and the first entry of the order is blank |
| Control.Control.ServeOrder | Code/Server/Control.py:144-223 | the first branch whose command is in the order with the length it indexes is served; when none matches nothing changes |
| Control.Control.Step | Code/Server/Control.py:140-223 | one pass of the loop performs the guard and the first matching branch |
| Control.Control.BalanceLoop | Code/Server/Control.py:289-299 | the passes of `imu6050`'s loop leave the state `Dispatch.Balance` gives |
| Control.Control.Feed | Code/Server/Control.py:138-223 | one input: while balancing, the loop's passes, then the break test on the new order; otherwise the next pass on the new order |
| Control.Control.Condition | Code/Server/Control.py:138-223 | the loop over a sequence of inputs ends as the trace of passes says, resuming after the balancing loop |
| Servo.DutyExact | Code/Server/Servo.py:11-26 | the duty is the truncation of (91 angle + 4095) / 40 |
| Servo.DutyRange | Code/Server/Servo.py:11-26 | for angles 0..180 the duty lies in [102, 511], with 102 at 0, 307 at 90 and 511 at 180 |
| Servo.DutyMonotone | Code/Server/Servo.py:26 | a larger angle never gives a smaller duty |
| Servo.AngleWrites | Code/Server/Servo.py:25-30 | channels 0..15 get exactly one write of the duty to chip 0x41 and channels 16..31 one to chip 0x40, at chip channel 0..15; channels of 32 and above get none; a negative channel goes to chip 0x41 as it is |
| Servo.RelaxAt | Code/Server/Servo.py:32-36 | write k of `relax` belongs to round k/3 |
| Servo.RelaxRegisters | Code/Server/Servo.py:32-36 | `relax` writes full-off once to each of channels 8..31 and to no other channel, each on the chip that holds it |
| Servo.InstallAt | Code/Server/Servo.py:38-46 | write k of the installation belongs to channel k |
| Servo.InstallationTable | Code/Server/Servo.py:38-46 | channels 0..31 are written in order, 0..15 on chip 0x41 and 16..31 on chip 0x40: 10, 13 and 31 at duty 102, 18, 21 and 27 at duty 511, all others at duty 307 |
| Servo.Servo.constructor | Code/Server/Servo.py:15-22 | a new driver has written no channel |
| Servo.Servo.SetServoAngle | Code/Server/Servo.py:25-30 | the log grows by the routed write |
| Servo.Servo.Relax | Code/Server/Servo.py:32-36 | the loop appends the 24 relax writes |
| Servo.InstallationPosition | Code/Server/Servo.py:38-46 | a fresh driver's log is the installation sequence |

## Left out

- `coordinateToAngle` (Code/Server/Control.py:72-86) is the parameter `ik`: its trigonometry, `sqrt` and rounding are floating point. The forward/inverse kinematics round trip is therefore not stated. `angleToCoordinate` (87-94) is not called by the core and is not modelled.
- `math.sin`, `math.cos` and `math.pi` are the parameter `trig`. Coordinates are exact reals, so float rounding in the strides, the leg frames and `postureBalance` is not modelled.
- Kinematics.CheckPoint: compares squared lengths with 90² and 248², which equals the source's `sqrt` test on exact reals but not under float rounding at the bounds.
- The IMU and the PID controller of `imu6050` (Code/Server/Control.py:285-296): each pass's roll and pitch are inputs (`Dispatch.Tilt`), whatever the sensor and the controller produce. The IMU error calibration and the 50 Hz pacing are not modelled.
- Threads: `condition` runs on its own thread while another thread writes `order`. The model takes the orders one per pass, as a sequence (`Control.Control.Condition`), so it does not capture an order overwritten in the middle of a pass.
- Hardware and timing: GPIO, smbus and PCA9685 setup, `setPWMFreq` (Code/Server/Servo.py:15-22), every `time.sleep`, and `time.time()`, which becomes the parameter `now`.
- `setLegServoBatch` (Code/Server/Control.py:126) is not defined in Code/Server/Servo.py. It is modelled as one call that carries the whole 6×3 angle table, and its channel mapping is not part of this model.
- The message `setLegAngle` prints for an out-of-range point; the `Servo.py` main program (49-58), which only prints and repeats the installation.
- The point file is its contents, a string: opening, reading and closing it are not modelled.
- PointFile.ParseInt: accepts only an optional sign and ASCII digits, while Python's `int` also accepts surrounding whitespace, underscores and non-ASCII digits. `str.strip` is modelled on ASCII whitespace only.
- Control.Control.constructor: requires the point file to parse into at least six rows of at least three numbers; the source raises in `__init__` otherwise.
- Servo.Servo.SetServoAngle: takes whole-degree angles, which is what the controller sends; fractional angles are not modelled.
- The unused fields `move_flag`, `relax_flag`, `pid` and `imu` of `Control`, and `run`'s unused counter `aa`.
- Code/Client/stylesheet.py is the client's user interface and is not part of this model.
