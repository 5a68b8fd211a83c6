# Free-flight camera and polled keyboard of 3D-Game-Test

A Dafny model of two parts of the `com.gmail.br45entei.test` package.

The first part is the test game's free-flight camera in `TestGame.java`. A
tick in which M was just pressed toggles between 2D and 3D mode. In 3D it copies the pose (position,
zoom distance, yaw, pitch, roll) into working values and steers them with the
six movement keys, the mouse, the roll keys, the middle button and the reset
key. The zoom key switches the field of view. Then the angles are normalised
into (-360, 360). With free-look off, the pitch is clamped away from
"past vertical", and the roll is damped towards level and snapped to it
close by, so that a roll left alone is exactly level within 211 ticks. The
clamp and the damping read their input as an angle in [0, 360); a working
angle carried to -360 or below in one tick stays negative after
normalisation, and then they misjudge it (`CameraTick.SettleBelowOneTurn`). Last, the pose is written back together with its "last" copy, but
only when a component changed or a second has passed. The model also covers:

- the six move methods and their ground-mode variants;
- the upside-down test on the view matrix;
- the field reset;
- the setters;
- the game-controller axis handler;
- the cube vertex layout;
- the texture viewer's wrapping arrow-key index.

The second part is `KeyboardTest.java`: a poll copies the current key table
into the previous one and refills the current one from the operating system.
`isKeyDown` and `getKeyDown` read those two tables.

Module layout:

- `Angles` (angles.dfy). Java's float remainder (truncating), angle
  normalisation, the pitch clamp and the roll damping. All are pure.
- `ViewMatrix` (view_matrix.dfy). The 16-cell view matrix and the
  upside-down test.
- `Movement` (movement.dfy). The move rules in two forms: as a heading
  vector (`Move`), and as the coordinate updates the methods write
  (`SourceMove`). A lemma proves the two forms agree.
- `CameraTick` (camera_tick.dfy). The camera state as a value, and the pure
  rules for one input tick (`Tick`) and one controller-axis event
  (`AxisEvent`), with the lemmas about them.
- `TestGame` (test_game.dfy). The class whose fields the methods update in
  place. Each state-changing method's contract ties the new fields to the
  `CameraTick` rule it carries out.
- `Cube` (cube.dfy). `createCubeVertices`.
- `TextureViewer` (texture.dfy). The arrow-key handler of the texture
  viewer.
- `KeyboardTest` (keyboard.dfy). The polled keyboard, as a class over two
  arrays.

Java `float` and `double` values are modelled as unbounded reals.
Where the source uses Java's `%` on floats, the model uses truncating
division.

One behaviour worth knowing, proved as `CameraTick.ResetKeepsZoomDistance`:
the reset key sets the zoom distance *field* to 0, but the tick then writes
back the *working* zoom distance. So the reset does not clear a zoom
distance unless the middle button is held too, except in the tick where
nothing is written back (`CameraTick.ResetWithoutCommit`).

## Model

Paths are relative to the repository root.

| member | source | states |
|---|---|---|
| Angles.TruncateTowardZero | src/com/gmail/br45entei/test/TestGame.java:921-923 | The quotient Java's float remainder uses, truncated toward zero: for q >= 0 the largest integer not above q, for q < 0 the smallest integer not below q. |
| Angles.Rem360 | src/com/gmail/br45entei/test/TestGame.java:921-923 | Java's float `a % 360`: the remainder after truncating division, with the sign of `a`. Its range is proved by `NormaliseRange`. |
| Angles.Normalise | src/com/gmail/br45entei/test/TestGame.java:921-923 | The tick's `(360 + a) % 360` for each angle. `NormaliseRange`, `NormaliseIdentity`, `NormaliseIdempotent` and `NormaliseBelowOneTurn` prove what it gives. |
| Angles.NormaliseRange | src/com/gmail/br45entei/test/TestGame.java:921-923 | `(360 + a) % 360` always lies in (-360, 360) and differs from `a` by whole turns. It lies in [0, 360) when `a > -360`, and is at most 0 otherwise. |
| Angles.NormaliseIdentity | src/com/gmail/br45entei/test/TestGame.java:921-923 | An angle already in [0, 360) is unchanged by normalisation. |
| Angles.NormaliseIdempotent | src/com/gmail/br45entei/test/TestGame.java:921-923 | For angles above -360, normalising twice equals normalising once. |
| Angles.NormaliseBelowOneTurn | src/com/gmail/br45entei/test/TestGame.java:921-923 | An angle in (-720, -360] comes out exactly one turn up, in (-360, 0] (so -370 gives -10, not 350): the bound above is needed. |
| Angles.ClampPitch | src/com/gmail/br45entei/test/TestGame.java:925 | The free-look-off pitch clamp: (90, 180] goes to 90, (180, 270) to 270, anything else stays. `ClampPitchSpec` and `ClampPitchIdempotent` prove this. |
| Angles.ClampPitchSpec | src/com/gmail/br45entei/test/TestGame.java:925 | The clamp never leaves a pitch strictly between 90 and 270, and keeps every pitch outside that band. A pitch inside it goes to whichever of 90 and 270 is nearer; a tie at 180 goes to 90. |
| Angles.ClampPitchIdempotent | src/com/gmail/br45entei/test/TestGame.java:925 | Clamping twice equals clamping once. |
| Angles.DampRoll | src/com/gmail/br45entei/test/TestGame.java:926-934 | One free-look-off roll step: scale the distance from the nearer of 0 and 360 by 0.95, renormalise, snap to 0 below 0.01. The `DampRoll*` lemmas prove its range, decay, snap and fixed point. |
| Angles.SettleRoll | src/com/gmail/br45entei/test/TestGame.java:926-934 | `DampRoll` applied n times, the roll after n ticks that leave it alone. The `SettleRoll*` lemmas and `FourteenTicksHalve` prove its decay and that it reaches level. |
| Angles.DampRollRange | src/com/gmail/br45entei/test/TestGame.java:926-934 | For a normalised roll, the damped roll is in [0, 360): either exactly level or at least 0.01 from level on either side. |
| Angles.DampRollApproachesLevel | src/com/gmail/br45entei/test/TestGame.java:926-934 | For a roll in [0, 360), the damped roll's distance from level is at most 0.95 times the old distance. |
| Angles.DampRollSnapsToLevel | src/com/gmail/br45entei/test/TestGame.java:934 | A roll in [0, 360) whose distance from level, times 0.95, is below 0.01 becomes exactly 0. |
| Angles.DampRollKeepsLevel | src/com/gmail/br45entei/test/TestGame.java:926-934 | A level roll stays level. |
| Angles.SettleRollDecays | src/com/gmail/br45entei/test/TestGame.java:921-934 | For a roll in [0, 360), after n settle steps the roll is still in [0, 360), and its distance from level is at most 0.95^n times the starting distance. |
| Angles.FourteenTicksHalve | src/com/gmail/br45entei/test/TestGame.java:926-934 | Fourteen settle steps at least halve the distance from level of a roll in [0, 360). |
| Angles.SettleRollHalves | src/com/gmail/br45entei/test/TestGame.java:926-934 | After 14k settle steps the distance from level has been halved at least k times. |
| Angles.SettleRollReachesLevel | src/com/gmail/br45entei/test/TestGame.java:926-934 | From any roll in [0, 360), 211 or more settle steps give exactly 0: the decay and the 0.01 snap reach level in bounded time, and it stays there. |
| Angles.SettleRollStaysLevel | src/com/gmail/br45entei/test/TestGame.java:921-934 | A level roll stays level for any number of settle steps. |
| Angles.SettleRollShift | src/com/gmail/br45entei/test/TestGame.java:926-934 | One settle step followed by n more is n + 1 settle steps. |
| ViewMatrix.LimitDecimalNoRounding4 | src/com/gmail/br45entei/test/TestGame.java:816 | The view cell cut after its fourth decimal without rounding, read back as a number. `UpsideDownIff` proves what that means for the sign test. |
| ViewMatrix.UpsideDown | src/com/gmail/br45entei/test/TestGame.java:815-817 | `isCameraUpsideDown`: the cut cell 5 is negative. `UpsideDownIff` proves that this holds exactly when cell 5 is at most -0.0001. |
| ViewMatrix.UpsideDownIff | src/com/gmail/br45entei/test/TestGame.java:815-817 | The camera counts as upside down exactly when view cell 5 is at most -0.0001. A cell above that is cut to 0 by the four-decimal truncation. |
| Movement.Heading | src/com/gmail/br45entei/test/TestGame.java:621-691 | The unit direction each move method steps along, for each mode and upside-down state. `HeadingOpposite` proves that opposite keys have negated headings. |
| Movement.Move | src/com/gmail/br45entei/test/TestGame.java:621-691 | A move as position plus heading times amount. `MoveInverse`, `MoveNegatedAmount` and the `Ground*` lemmas prove its laws. |
| Movement.SourceMove | src/com/gmail/br45entei/test/TestGame.java:621-691 | The coordinate updates the six move methods write, branch by branch. `MoveMatchesSource` proves that it equals `Move`. |
| Movement.HeadingOpposite | src/com/gmail/br45entei/test/TestGame.java:621-691 | In every mode and upside-down state, opposite directions move along negated headings: forward/backward, left/right, up/down. |
| Movement.MoveInverse | src/com/gmail/br45entei/test/TestGame.java:621-691 | A move followed by the opposite move of the same amount returns to the starting position. |
| Movement.MoveNegatedAmount | src/com/gmail/br45entei/test/TestGame.java:621-691 | Moving by `-a` undoes moving by `a` in the same direction. |
| Movement.GroundForwardKeepsHeight | src/com/gmail/br45entei/test/TestGame.java:621-645 | In ground mode, forward and backward moves never change the height `y`. |
| Movement.GroundVerticalKeepsPlane | src/com/gmail/br45entei/test/TestGame.java:671-691 | In ground mode, up and down moves change only `y`: up adds the move amount and down subtracts it, both reversed when upside down with the vertical invert switch set. |
| Movement.GroundStrafeIgnoresInversion | src/com/gmail/br45entei/test/TestGame.java:647-669 | In ground mode, strafing does not depend on the upside-down state or the invert switches, and keeps `y`. |
| Movement.GroundInversion | src/com/gmail/br45entei/test/TestGame.java:621-691 | In ground mode, when the camera is upside down and the direction's invert switch is set, a move equals the opposite direction's move without inversion. |
| Movement.MoveMatchesSource | src/com/gmail/br45entei/test/TestGame.java:621-691 | The heading form of a move equals the coordinate updates the six move methods write, for every direction, mode and upside-down state. |
| Movement.SourceMoveInverse | src/com/gmail/br45entei/test/TestGame.java:621-691 | In the methods' own coordinate form, a move followed by the opposite move returns to the start. |
| CameraTick.InitialCamera | src/com/gmail/br45entei/test/TestGame.java:132-156 | A new camera is valid, starts in 2D, and has a zero pose and a zero last copy. |
| CameraTick.ResetFields | src/com/gmail/br45entei/test/TestGame.java:693-698 | `resetCameraFields` on the camera value: zero pose, default clip planes, settled field of view. `SteerFieldsSpec` and `ResetKeepsZoomDistance` prove its consequences. |
| CameraTick.ResetFovy | src/com/gmail/br45entei/test/TestGame.java:697 | After a reset the field of view is the normal or the zoomed one. It is unchanged exactly when it already was one of them. |
| CameraTick.SteerPosition | src/com/gmail/br45entei/test/TestGame.java:833-890 | The position after the six key checks, each move starting where the previous one ended. `OpposingKeysCancel` proves that opposing keys cancel. |
| CameraTick.SteerYaw | src/com/gmail/br45entei/test/TestGame.java:892-893 | The working yaw after the mouse turn. `SteerYawInverts` and `ZoomScalesTurns` prove its law. |
| CameraTick.SteerPitch | src/com/gmail/br45entei/test/TestGame.java:892-894 | The working pitch after the mouse turn. `SteerPitchInverts` and `ZoomScalesTurns` prove its law. |
| CameraTick.SteerRoll | src/com/gmail/br45entei/test/TestGame.java:897-902 | The working roll after the roll keys. `RollKeysStep` and `ZoomScalesTurns` prove its law. |
| CameraTick.Steer | src/com/gmail/br45entei/test/TestGame.java:825-918 | The working pose after moves, mouse turn, roll keys, middle button and reset. `SteerReset` and the partner lemmas of its parts prove what it gives. |
| CameraTick.OpposingKeysCancel | src/com/gmail/br45entei/test/TestGame.java:833-890 | With W/S, A/D and space/shift each both held or both released, the six key checks leave the position where it was. |
| CameraTick.SteerYawInverts | src/com/gmail/br45entei/test/TestGame.java:892-893 | The mouse yaw turn is the horizontal motion times the zoom-scaled sensitivity, negated exactly when upside down with the yaw invert switch on. |
| CameraTick.SteerPitchInverts | src/com/gmail/br45entei/test/TestGame.java:892-894 | The mouse pitch turn is the vertical motion times the zoom-scaled sensitivity, negated exactly when the roll before this tick's roll keys is strictly between 90 and 270 and the pitch invert switch is on. |
| CameraTick.ZoomScalesTurns | src/com/gmail/br45entei/test/TestGame.java:893-902 | Zoomed in, the yaw turn, pitch turn and roll-key step are each 20/70 of the same turn at the normal field of view. |
| CameraTick.RollKeysStep | src/com/gmail/br45entei/test/TestGame.java:897-902 | `[` alone rolls left and `]` alone rolls right by deltaTime times the zoom-scaled sensitivity times 100; both together cancel. |
| CameraTick.ZoomKeys | src/com/gmail/br45entei/test/TestGame.java:905-910 | The field of view after the zoom key's press and release checks, the release checked second. `SteerFieldsSpec` proves that the release wins. |
| CameraTick.SteerFields | src/com/gmail/br45entei/test/TestGame.java:905-918 | The field writes of the captured block: the zoom key and the reset. `SteerFieldsSpec` proves what they write and keep. |
| CameraTick.SteerFieldsSpec | src/com/gmail/br45entei/test/TestGame.java:905-918 | What the captured block does to the fields. The zoom release wins over the press. With the reset key: zero pose, default clip planes, settled field of view. Settings, mode, last copy and write time are untouched. |
| CameraTick.Commit | src/com/gmail/br45entei/test/TestGame.java:937-949 | The throttled write-back: pose, last copy and write time, when a component changed or a second passed. `CommitFields` and `TickCommit` prove when it writes. |
| CameraTick.CommitFields | src/com/gmail/br45entei/test/TestGame.java:940-949 | Pose, last copy and write time change together, to the candidate and now, or not at all. Nothing else changes. |
| CameraTick.Settle | src/com/gmail/br45entei/test/TestGame.java:921-935 | The candidate pose: normalised angles, then with free-look off the pitch clamp and roll damping. `SettleSpec` and `SettleAtRest` prove its range and fixed points. |
| CameraTick.SettleSpec | src/com/gmail/br45entei/test/TestGame.java:921-935 | Settling leaves all three angles in (-360, 360), and position and zoom distance untouched. With free-look off, the pitch is not past vertical and the roll is in [0, 360), level or at least 0.01 from level. |
| CameraTick.SettleAtRest | src/com/gmail/br45entei/test/TestGame.java:921-935 | A pose at rest (angles in [0, 360); with free-look off also level and not past vertical) is a fixed point of settling. |
| CameraTick.Toggled | src/com/gmail/br45entei/test/TestGame.java:821-823 | The M key check: the mode flips exactly when M was just pressed. `TickFrame` proves this for the whole tick. |
| CameraTick.Tick | src/com/gmail/br45entei/test/TestGame.java:820-961 | One `input()` call on the camera value. `TickCommit`, `TickFrame`, `TickIdle`, `TickLevelsCamera`, `TickDampsRoll` and `TickPreservesValid` prove its laws. |
| CameraTick.Run | src/com/gmail/br45entei/test/TestGame.java:820-961 | Successive `input()` calls, one per frame. `RunSettlesRoll` and `RunLevelsRoll` prove that an untouched roll is levelled. |
| CameraTick.TickCommit | src/com/gmail/br45entei/test/TestGame.java:937-949 | In 3D, when the throttle lets the write through, the live pose and the last copy both equal the settled candidate and the write time is now. Otherwise the last copy and write time are kept. |
| CameraTick.TickFrame | src/com/gmail/br45entei/test/TestGame.java:820-961 | A tick never changes the view matrix or the settings. It flips 2D/3D exactly when M was just pressed. |
| CameraTick.TickIn2DIsIdle | src/com/gmail/br45entei/test/TestGame.java:820-824 | In 2D, with no toggle, a tick changes nothing. |
| CameraTick.TickIdle | src/com/gmail/br45entei/test/TestGame.java:824-949 | With no mouse capture, a pose at rest equal to its last copy, and less than a second since the last write, a 3D tick changes nothing. |
| CameraTick.TickDampsRoll | src/com/gmail/br45entei/test/TestGame.java:921-949 | With free-look off, a 3D tick without toggle, roll keys or reset, from a pose equal to its last copy with roll in [0, 360), leaves roll = `DampRoll` of the old roll, pose equal to last copy, roll in [0, 360), still 3D with the same settings. |
| CameraTick.RunSettlesRoll | src/com/gmail/br45entei/test/TestGame.java:820-961 | Over ticks that keep the roll untouched, the roll after n ticks is n settle steps of the starting roll. |
| CameraTick.RunLevelsRoll | src/com/gmail/br45entei/test/TestGame.java:820-961 | After 211 or more such ticks the roll is exactly level. |
| CameraTick.SettleBelowOneTurn | src/com/gmail/br45entei/test/TestGame.java:921-934 | Source behaviour below one turn: a working pitch of -560 settles at -200 (160 degrees, past vertical, not clamped), and a working roll of -710 (-350, 10 degrees from level) is damped to 27.5. |
| CameraTick.TickLevelsCamera | src/com/gmail/br45entei/test/TestGame.java:924-935 | In 3D with free-look off, the candidate's pitch is not past vertical and its roll is in [0, 360). |
| CameraTick.ResetKeepsZoomDistance | src/com/gmail/br45entei/test/TestGame.java:912-918 | With the reset key, the pose offered for writing back is all zeros except the zoom distance. That stays the working one: 0 only if the middle button was held. |
| CameraTick.ResetWithoutCommit | src/com/gmail/br45entei/test/TestGame.java:915-918 | When a reset tick writes nothing back, the live pose is left at all zeros. |
| CameraTick.SteerReset | src/com/gmail/br45entei/test/TestGame.java:912-918 | The reset key zeroes the working position and angles and keeps the working zoom distance. |
| CameraTick.ValidScalesTurns | src/com/gmail/br45entei/test/TestGame.java:892-894 | With the field of view normal or zoomed, as the reset (line 697) and the zoom key leave it, the mouse turns are scaled by the plain sensitivity or by 20/70 of it. |
| CameraTick.ValidAnglesNormalise | src/com/gmail/br45entei/test/TestGame.java:921-923 | The stored angles of a valid camera, normalised as a tick does to an angle it does not turn, lie in [0, 360), where the clamp and damping read them correctly. |
| CameraTick.TickPreservesValid | src/com/gmail/br45entei/test/TestGame.java:820-961 | Every tick keeps the live and last angles in (-360, 360) and the field of view normal or zoomed. |
| CameraTick.StickMove | src/com/gmail/br45entei/test/TestGame.java:1145-1150 | A left-stick event as a move with frame time deltaTime × value. `StickMoveMatchesSource` proves that it equals the move methods' updates. |
| CameraTick.StickTurn | src/com/gmail/br45entei/test/TestGame.java:1152-1169 | A right-stick event: turn, normalise, clamp, copy into the last values. `StickTurnInverts` and `StickTurnSpec` prove its law and range. |
| CameraTick.StickTurnInverts | src/com/gmail/br45entei/test/TestGame.java:1152-1169 | The turned angle is the old angle plus value × zoom-scaled sensitivity × 625 × deltaTime, then normalised and, for pitch with free-look off, clamped. Yaw's change is negated exactly when upside down with the yaw switch. Pitch's is negated exactly when upside down, rolled over and the pitch switch is on. |
| CameraTick.AxisEvent | src/com/gmail/br45entei/test/TestGame.java:1138-1175 | `onControllerAxisNonZero` on the camera value. `AxisPreservesValid` proves its frame and validity. |
| CameraTick.StickMoveMatchesSource | src/com/gmail/br45entei/test/TestGame.java:1145-1150 | A left-stick event moves the position exactly as the move methods' coordinate updates do, for a frame time of `deltaTime * value`. |
| CameraTick.StickStepFlip | src/com/gmail/br45entei/test/TestGame.java:1155-1160 | The invert factor reverses a stick turn: the flipped step is the negation of the unflipped one. Which condition picks the flip is stated by `StickTurnInverts`. |
| CameraTick.StickTurnSpec | src/com/gmail/br45entei/test/TestGame.java:1152-1169 | After a right-stick event, yaw and pitch are normalised and equal to their last copies. With free-look off the pitch is not past vertical. The axis not turned is only normalised (the pitch is also clamped with free-look off). Roll, position and the last roll are kept. |
| CameraTick.AxisPreservesValid | src/com/gmail/br45entei/test/TestGame.java:1138-1175 | Every axis event keeps the camera valid. An inactive event or a trigger axis changes nothing. A left-stick event changes only the position. |
| TestGame.TestGame.constructor | src/com/gmail/br45entei/test/TestGame.java:132-156 | The fields start at the initial camera state, which is valid. |
| TestGame.TestGame.LoadModelView | src/com/gmail/br45entei/test/TestGame.java:586 | The render step replaces the view matrix and keeps the camera valid. |
| TestGame.TestGame.IsCameraUpsideDown | src/com/gmail/br45entei/test/TestGame.java:815-817 | `isCameraUpsideDown` on the fields: `ViewMatrix.UpsideDown` of the view matrix, which `UpsideDownIff` characterises. |
| TestGame.TestGame.MoveForward | src/com/gmail/br45entei/test/TestGame.java:621-632 | Only the position changes, by the coordinate updates of the forward move: along the view, or along the ground, inverted when required. |
| TestGame.TestGame.MoveBackward | src/com/gmail/br45entei/test/TestGame.java:634-645 | Only the position changes, by the coordinate updates of the backward move. |
| TestGame.TestGame.MoveLeft | src/com/gmail/br45entei/test/TestGame.java:647-657 | Only the position changes, by the coordinate updates of the left strafe. |
| TestGame.TestGame.MoveRight | src/com/gmail/br45entei/test/TestGame.java:659-669 | Only the position changes, by the coordinate updates of the right strafe. |
| TestGame.TestGame.MoveUp | src/com/gmail/br45entei/test/TestGame.java:671-680 | Only the position changes, by the coordinate updates of the up move. |
| TestGame.TestGame.MoveDown | src/com/gmail/br45entei/test/TestGame.java:682-691 | Only the position changes, by the coordinate updates of the down move. |
| TestGame.TestGame.ResetCameraFields | src/com/gmail/br45entei/test/TestGame.java:693-698 | Zero pose, default clip planes, settled field of view. The last copy is untouched and validity is kept. |
| TestGame.TestGame.SetMouseSensitivity | src/com/gmail/br45entei/test/TestGame.java:723-726 | A finite value is stored; NaN and the infinities keep the old one. No other setting changes. |
| TestGame.TestGame.SetFreeLookEnabled | src/com/gmail/br45entei/test/TestGame.java:732-735 | Stores the switch; no other setting changes. |
| TestGame.TestGame.SetInvertYawWhileUpsideDownEnabled | src/com/gmail/br45entei/test/TestGame.java:745-748 | Stores the switch; no other setting changes. |
| TestGame.TestGame.SetInvertPitchWhileUpsideDownEnabled | src/com/gmail/br45entei/test/TestGame.java:758-761 | Stores the switch; no other setting changes. |
| TestGame.TestGame.SetMovementSpeed | src/com/gmail/br45entei/test/TestGame.java:771-774 | A finite value is stored; NaN and the infinities keep the old one. No other setting changes. |
| TestGame.TestGame.SetFreeMoveEnabled | src/com/gmail/br45entei/test/TestGame.java:780-783 | Stores the switch; no other setting changes. |
| TestGame.TestGame.SetInvertForwardMovementWhileUpsideDownEnabled | src/com/gmail/br45entei/test/TestGame.java:793-796 | Stores the switch; no other setting changes. |
| TestGame.TestGame.SetInvertVerticalMovementWhileUpsideDownEnabled | src/com/gmail/br45entei/test/TestGame.java:806-809 | Stores the switch; no other setting changes. |
| TestGame.TestGame.Input | src/com/gmail/br45entei/test/TestGame.java:820-961 | The fields after one tick are exactly `CameraTick.Tick` of the fields before, and the camera stays valid. |
| TestGame.TestGame.SteerBlock | src/com/gmail/br45entei/test/TestGame.java:827-918 | The working pose is the steered pose. The only field changes are the zoom key's and the reset's. |
| TestGame.TestGame.ZoomKey | src/com/gmail/br45entei/test/TestGame.java:905-910 | The press zooms in and the release, checked second, restores the normal view. Nothing else changes. |
| TestGame.TestGame.SteerPose | src/com/gmail/br45entei/test/TestGame.java:825-918 | The working pose after moves, mouse turn, roll keys, middle button and reset key, with no field changed. |
| TestGame.TestGame.SteerMoves | src/com/gmail/br45entei/test/TestGame.java:833-890 | The six key checks move the position in order, each step starting where the previous one left it (`SteerPosition`); opposing keys cancel (`CameraTick.OpposingKeysCancel`). |
| TestGame.TestGame.MouseTurn | src/com/gmail/br45entei/test/TestGame.java:892-894 | Yaw and pitch are `SteerYaw` and `SteerPitch` of the fields before: motion times zoom-scaled sensitivity, reversed under the invert rules (`CameraTick.SteerYawInverts`, `SteerPitchInverts`, `ZoomScalesTurns`). |
| TestGame.TestGame.RollKeys | src/com/gmail/br45entei/test/TestGame.java:897-902 | The roll is `SteerRoll` of the fields before: one scaled step per roll key, the two cancelling (`CameraTick.RollKeysStep`). |
| TestGame.TestGame.SettleBlock | src/com/gmail/br45entei/test/TestGame.java:921-935 | The candidate is the settled working pose. |
| TestGame.TestGame.CommitBlock | src/com/gmail/br45entei/test/TestGame.java:937-949 | The fields after the throttled write-back are exactly `CameraTick.Commit`, and validity is kept. |
| TestGame.TestGame.OnControllerAxisNonZero | src/com/gmail/br45entei/test/TestGame.java:1138-1175 | The fields after an axis event are exactly `CameraTick.AxisEvent` of the fields before, and the camera stays valid. |
| TestGame.TestGame.StickMoveStep | src/com/gmail/br45entei/test/TestGame.java:1145-1150 | A left-stick event leaves the fields at the stick move's state. |
| TestGame.TestGame.StickTurnStep | src/com/gmail/br45entei/test/TestGame.java:1152-1169 | A right-stick event leaves the fields at the stick turn's state, live and last angles alike. |
| Cube.FaceCornersOnFace | src/com/gmail/br45entei/test/TestGame.java:113-124 | Every corner listed for a face lies on that face. |
| Cube.CreateCubeVertices | src/com/gmail/br45entei/test/TestGame.java:108-125 | 108 coordinates (36 vertices). Every coordinate is plus or minus half the matching edge length. |
| Cube.CubeFaces | src/com/gmail/br45entei/test/TestGame.java:113-124 | Vertices 6k to 6k+5 lie on face k, in the order front, right, back, left, bottom, top. |
| TextureViewer.WrapIndex | src/com/gmail/br45entei/test/TestGame.java:336-341 | The arrow-key step of the texture index, wrapping at both ends. The `WrapIndex*` lemmas prove its range, ends, modular form and inverse. |
| TextureViewer.WrapIndexInRange | src/com/gmail/br45entei/test/TestGame.java:336-341 | For a non-empty table, the stepped index is always a valid entry, whatever the starting index. |
| TextureViewer.WrapIndexEnds | src/com/gmail/br45entei/test/TestGame.java:336-341 | Left from the first entry goes to the last; right from the last goes to the first. |
| TextureViewer.WrapIndexIsModular | src/com/gmail/br45entei/test/TestGame.java:336-341 | From a valid entry, a step is exactly modular arithmetic on the table size. |
| TextureViewer.WrapIndexInverse | src/com/gmail/br45entei/test/TestGame.java:336-341 | From a valid entry, left then right and right then left both return to the start. |
| TextureViewer.Viewer.constructor | src/com/gmail/br45entei/test/TestGame.java:224 | The index starts at 0, a valid entry. |
| TextureViewer.Viewer.OnKeyDown | src/com/gmail/br45entei/test/TestGame.java:333-343 | For an active viewer, the arrow keys step the index with wraparound. Otherwise the index stays. It is always a valid entry. |
| KeyboardTest.Sample | src/com/gmail/br45entei/test/KeyboardTest.java:55-56 | The table a poll reads: 256 entries, entry i being the key check of scan code i. |
| KeyboardTest.Down | src/com/gmail/br45entei/test/KeyboardTest.java:66-68 | `isKeyDown`'s bounds-checked read of the current table. `OutOfRangeIsUp` proves what out-of-range codes give. |
| KeyboardTest.JustPressed | src/com/gmail/br45entei/test/KeyboardTest.java:72-74 | `getKeyDown`: down now and up at the previous poll. `JustPressedIsDown` and `HeldAcrossTwoPolls` prove its laws. |
| KeyboardTest.OutOfRangeIsUp | src/com/gmail/br45entei/test/KeyboardTest.java:66-74 | A scan code outside [0, 256) is never down and never just pressed. |
| KeyboardTest.JustPressedIsDown | src/com/gmail/br45entei/test/KeyboardTest.java:66-74 | A key just pressed is down. |
| KeyboardTest.HeldAcrossTwoPolls | src/com/gmail/br45entei/test/KeyboardTest.java:53-74 | A key up before two polls and held through both is just pressed after the first and only down after the second. |
| KeyboardTest.Keyboard.constructor | src/com/gmail/br45entei/test/KeyboardTest.java:35-36 | Two distinct 256-entry tables, every key up. |
| KeyboardTest.Keyboard.Poll | src/com/gmail/br45entei/test/KeyboardTest.java:53-61 | The previous table becomes the old current table and the current table becomes the fresh sample. The arrays are neither replaced nor resized. |
| KeyboardTest.Keyboard.IsKeyDown | src/com/gmail/br45entei/test/KeyboardTest.java:66-68 | True exactly for an in-range code that is down in the current table. |
| KeyboardTest.Keyboard.GetKeyDown | src/com/gmail/br45entei/test/KeyboardTest.java:72-74 | True exactly for an in-range code that is down now and was up at the previous poll. |
| KeyboardTest.PollTwice | src/com/gmail/br45entei/test/KeyboardTest.java:53-74 | Two polls through the class reproduce the held-key behaviour of `HeldAcrossTwoPolls`. |

## Left out

- The matrix stack, `GLUtil`, `MathUtil`, the window, controller manager and
  renderer classes are not part of this model.
  - The view matrix is a parameter of `LoadModelView` and of the initial
    state.
  - `MathUtil.limitDecimalNoRounding` is taken to cut to four decimals
    (`ViewMatrix.LimitDecimalNoRounding4`).
- OpenGL drawing, projection set-up, the HUD, font rendering and window
  handling are left out. They are I/O.
- Mouse, keyboard and clock queries are collected in `CameraTick.InputFrame`:
  - which keys were pressed or released;
  - the mouse motion;
  - whether the mouse is captured;
  - the wall-clock milliseconds.

  The operating-system key check behind `KeyboardTest.checkKey` is a function
  parameter of `Poll`. Window visibility and "first controller" become the
  `active` parameter.
- Thread safety of the `volatile` fields and concurrent callers are not
  modelled.
- Java `float`/`double` rounding, mixed float/double arithmetic and NaN
  propagation in the angle arithmetic are not modelled: values are reals.
  The setters' finiteness checks are modelled through
  `TestGame.Float32`.
- `handleException`, the other test programs in the package, the key-logging
  `println` in `poll`, the camera-info printing and the `main` loop are left
  out. They only print or start the program.
- Controller buttons, the mouse-scroll handler, the `toggle*` methods and the
  getters are left out. They are outside the camera core.
- The key tables of `KeyboardTest` are static arrays; here they belong to one
  `Keyboard` object.
- `lastZNear` and `lastZFar` are left out. The input tick only carries them
  along.
- Grouping:
  - the seven pose fields and their seven `last` copies are held as two
    `CameraTick.Pose` values;
  - the switches and tuning values are one `CameraTick.Settings` value;
  - the commit test "any component differs" is written as inequality of the
    two poses, which means the same.
- `TestGame.TestGame.Input` is split into helper methods, one per block of
  the source's method.
  - `SteerMoves` writes its moves in the heading form `Movement.Move`, which
    `Movement.MoveMatchesSource` proves equal to the written coordinate
    updates.
  - The source writes the ground-mode forward step as `m[8] * moveAmount * f`
    inside the tick and as `m[8] * (moveAmount * f)` in `moveForward`. These
    are equal over reals.
- `TestGame.TestGame.OnControllerAxisNonZero` tests the axis with an
  `else if` chain where the source uses separate `if`s. Only one axis value
  occurs per event, so the two agree.
- `TestGame.TestGame.MoveForward` (and the other five move methods) do not
  restate `Valid()`: they change only the position, which `Valid()` does not
  mention.
- The clamp and the damping guarantees stated in terms of [0, 360) (`SettleSpec`,
  `TickLevelsCamera`, `StickTurnSpec`, `TickDampsRoll`) are guarantees about
  the numbers. For a working angle that one tick carries to -360 or below,
  the source's normalisation leaves a negative angle, and the clamp and the
  damping then do not do what their names say (`CameraTick.SettleBelowOneTurn`).
- `CameraTick.Run` uses one frame time for all ticks of a run. The roll
  results proved about it do not depend on the frame time.
