/** The test game's free-flight camera as an object whose fields each input
    tick, move, reset, setter and controller event updates in place. Every
    state-changing method is tied to the rule in `CameraTick` that it
    carries out. */
module TestGame {
  import opened Angles
  import opened ViewMatrix
  import opened Movement
  import opened CameraTick

  /** A Java `float` argument: a finite value, NaN, or an infinity. */
  datatype Float32 = Finite(value: real) | NaN | Infinity(negative: bool)

  class TestGame {
    var is3D: bool
    /** x, y, z, zDist, yaw, pitch and roll. */
    var pose: Pose
    /** lastX, lastY, lastZ, lastZDist, lastYaw, lastPitch and lastRoll. */
    var last: Pose
    var fovy: real
    var zNear: real
    var zFar: real
    var modelView: Matrix
    /** freeLook, the three invert switches, freeMove, mouseSensitivity and
        movementSpeed. */
    var settings: Settings
    var lastSecond: int

    /** The fields as a camera state. */
    function State(): Camera
      reads this
    {
      Camera(is3D, pose, last, fovy, zNear, zFar, modelView, settings, lastSecond)
    }

    /** The fields hold exactly the camera state `c`, field by field. */
    predicate Stores(c: Camera)
      reads this
    {
      is3D == c.is3D && pose == c.pose && last == c.last &&
      fovy == c.fovy && zNear == c.zNear && zFar == c.zFar && modelView == c.modelView &&
      settings == c.settings &&
      lastSecond == c.lastSecond
    }

    /** The camera invariant of `CameraTick.CameraValid`, read off the
        fields: live and last angles in (-360, 360), field of view normal or
        zoomed. */
    ghost predicate Valid()
      reads this
    {
      AnglesInRange(pose) && AnglesInRange(last) && (fovy == TargetFovy || fovy == ZoomFovy)
    }

    /** The field defaults. The first view matrix, which the matrix stack
        builds from the zero pose, is a parameter. */
    constructor (initialView: Matrix)
      ensures Valid() && Stores(InitialCamera(initialView))
    {
      is3D := false;
      pose, last := Origin, Origin;
      fovy, zNear, zFar := TargetFovy, DefaultZNear, DefaultZFar;
      modelView := initialView;
      settings := DefaultSettings;
      lastSecond := 0;
    }

    /** The render step replaces the view matrix with the one the matrix
        stack builds from the committed pose. */
    method LoadModelView(m: Matrix)
      requires Valid()
      modifies this`modelView
      ensures Valid() && modelView == m
    {
      modelView := m;
    }

    /** Whether the camera is upside down: cell 5 of the view matrix, cut to
        four decimals, is negative (see `ViewMatrix.UpsideDownIff`). */
    function IsCameraUpsideDown(): bool
      reads this`modelView
    {
      UpsideDown(modelView)
    }

    /** The move switches as the movement rules take them. */
    function MoveSwitches(): MoveMode
      reads this`settings
    {
      MoveMode(settings.freeMove, settings.invertForwardMovementWhenUpsideDown, settings.invertVerticalMovementWhenUpsideDown)
    }

    /** Moves the camera by `movementSpeed * deltaTime` along the view direction, or along the ground when free movement is off.
        Only the position changes. */
    method MoveForward(deltaTime: real)
      modifies this`pose
      ensures pose == old(pose).At(SourceMove(old(pose).Position(), Forward, modelView, MoveAmount(settings, deltaTime),
                                              MoveSwitches(), IsCameraUpsideDown()))
    {
      var m, x, y, z := modelView, pose.x, pose.y, pose.z;
      var moveAmount := MoveAmount(settings, deltaTime);
      if settings.freeMove {
        x := x - m[2] * moveAmount;
        y := y - m[6] * moveAmount;
        z := z - m[10] * moveAmount;
      } else {
        moveAmount := moveAmount * FlipFactor(IsCameraUpsideDown() && settings.invertForwardMovementWhenUpsideDown);
        x := x + m[8] * moveAmount;
        z := z - m[0] * moveAmount;
      }
      pose := pose.(x := x, y := y, z := z);
    }

    /** Moves the camera by `movementSpeed * deltaTime` against the view direction, or along the ground when free movement is off.
        Only the position changes. */
    method MoveBackward(deltaTime: real)
      modifies this`pose
      ensures pose == old(pose).At(SourceMove(old(pose).Position(), Backward, modelView, MoveAmount(settings, deltaTime),
                                              MoveSwitches(), IsCameraUpsideDown()))
    {
      var m, x, y, z := modelView, pose.x, pose.y, pose.z;
      var moveAmount := MoveAmount(settings, deltaTime);
      if settings.freeMove {
        x := x + m[2] * moveAmount;
        y := y + m[6] * moveAmount;
        z := z + m[10] * moveAmount;
      } else {
        moveAmount := moveAmount * FlipFactor(IsCameraUpsideDown() && settings.invertForwardMovementWhenUpsideDown);
        x := x - m[8] * moveAmount;
        z := z + m[0] * moveAmount;
      }
      pose := pose.(x := x, y := y, z := z);
    }

    /** Moves the camera by `movementSpeed * deltaTime` along the view's negative x axis, kept level when free movement is off.
        Only the position changes. */
    method MoveLeft(deltaTime: real)
      modifies this`pose
      ensures pose == old(pose).At(SourceMove(old(pose).Position(), Left, modelView, MoveAmount(settings, deltaTime),
                                              MoveSwitches(), IsCameraUpsideDown()))
    {
      var m, x, y, z := modelView, pose.x, pose.y, pose.z;
      var moveAmount := MoveAmount(settings, deltaTime);
      if settings.freeMove {
        x := x - m[0] * moveAmount;
        y := y - m[4] * moveAmount;
        z := z - m[8] * moveAmount;
      } else {
        x := x - m[0] * moveAmount;
        z := z - m[8] * moveAmount;
      }
      pose := pose.(x := x, y := y, z := z);
    }

    /** Moves the camera by `movementSpeed * deltaTime` along the view's x axis, kept level when free movement is off.
        Only the position changes. */
    method MoveRight(deltaTime: real)
      modifies this`pose
      ensures pose == old(pose).At(SourceMove(old(pose).Position(), Right, modelView, MoveAmount(settings, deltaTime),
                                              MoveSwitches(), IsCameraUpsideDown()))
    {
      var m, x, y, z := modelView, pose.x, pose.y, pose.z;
      var moveAmount := MoveAmount(settings, deltaTime);
      if settings.freeMove {
        x := x + m[0] * moveAmount;
        y := y + m[4] * moveAmount;
        z := z + m[8] * moveAmount;
      } else {
        x := x + m[0] * moveAmount;
        z := z + m[8] * moveAmount;
      }
      pose := pose.(x := x, y := y, z := z);
    }

    /** Moves the camera by `movementSpeed * deltaTime` along the view's y axis, or straight up when free movement is off.
        Only the position changes. */
    method MoveUp(deltaTime: real)
      modifies this`pose
      ensures pose == old(pose).At(SourceMove(old(pose).Position(), Up, modelView, MoveAmount(settings, deltaTime),
                                              MoveSwitches(), IsCameraUpsideDown()))
    {
      var m, x, y, z := modelView, pose.x, pose.y, pose.z;
      var moveAmount := MoveAmount(settings, deltaTime);
      if settings.freeMove {
        x := x + m[1] * moveAmount;
        y := y + m[5] * moveAmount;
        z := z + m[9] * moveAmount;
      } else {
        moveAmount := moveAmount * FlipFactor(IsCameraUpsideDown() && settings.invertVerticalMovementWhenUpsideDown);
        y := y + moveAmount;
        assert SourceMove(pose.Position(), Up, m, MoveAmount(settings, deltaTime), MoveSwitches(), IsCameraUpsideDown())
          == Position(x, y, z);
      }
      pose := pose.(x := x, y := y, z := z);
    }

    /** Moves the camera by `movementSpeed * deltaTime` against the view's y axis, or straight down when free movement is off.
        Only the position changes. */
    method MoveDown(deltaTime: real)
      modifies this`pose
      ensures pose == old(pose).At(SourceMove(old(pose).Position(), Down, modelView, MoveAmount(settings, deltaTime),
                                              MoveSwitches(), IsCameraUpsideDown()))
    {
      var m, x, y, z := modelView, pose.x, pose.y, pose.z;
      var moveAmount := MoveAmount(settings, deltaTime);
      if settings.freeMove {
        x := x - m[1] * moveAmount;
        y := y - m[5] * moveAmount;
        z := z - m[9] * moveAmount;
      } else {
        moveAmount := moveAmount * FlipFactor(IsCameraUpsideDown() && settings.invertVerticalMovementWhenUpsideDown);
        y := y - moveAmount;
        assert SourceMove(pose.Position(), Down, m, MoveAmount(settings, deltaTime), MoveSwitches(), IsCameraUpsideDown())
          == Position(x, y, z);
      }
      pose := pose.(x := x, y := y, z := z);
    }

    /** Zeroes the pose, restores the clip planes and settles the field of
        view; the last written copy of the pose is left alone. */
    method ResetCameraFields(ghost c: Camera)
      requires Valid() && Stores(c)
      modifies this`pose, this`zNear, this`zFar, this`fovy
      ensures Valid() && Stores(ResetFields(c))
    {
      pose, zNear, zFar := Origin, DefaultZNear, DefaultZFar;
      fovy := if fovy == TargetFovy || fovy == ZoomFovy then fovy else TargetFovy;
    }

    /** Stores a finite sensitivity; NaN and the infinities leave the old
        value in place. */
    method SetMouseSensitivity(mouseSensitivity: Float32)
      requires Valid()
      modifies this`settings
      ensures Valid()
      ensures settings == old(settings).(mouseSensitivity :=
        if mouseSensitivity.Finite? then mouseSensitivity.value else old(settings.mouseSensitivity))
    {
      if !(mouseSensitivity.NaN? || mouseSensitivity.Infinity?) {
        settings := settings.(mouseSensitivity := mouseSensitivity.value);
      }
    }

    /** Stores a finite speed; NaN and the infinities leave the old value in
        place. */
    method SetMovementSpeed(movementSpeed: Float32)
      requires Valid()
      modifies this`settings
      ensures Valid()
      ensures settings == old(settings).(movementSpeed :=
        if movementSpeed.Finite? then movementSpeed.value else old(settings.movementSpeed))
    {
      if !(movementSpeed.NaN? || movementSpeed.Infinity?) {
        settings := settings.(movementSpeed := movementSpeed.value);
      }
    }

    method SetFreeLookEnabled(freeLook: bool)
      requires Valid()
      modifies this`settings
      ensures Valid() && settings == old(settings).(freeLook := freeLook)
    {
      settings := settings.(freeLook := freeLook);
    }

    method SetInvertYawWhileUpsideDownEnabled(invertYawWhenUpsideDown: bool)
      requires Valid()
      modifies this`settings
      ensures Valid() && settings == old(settings).(invertYawWhenUpsideDown := invertYawWhenUpsideDown)
    {
      settings := settings.(invertYawWhenUpsideDown := invertYawWhenUpsideDown);
    }

    method SetInvertPitchWhileUpsideDownEnabled(invertPitchWhenUpsideDown: bool)
      requires Valid()
      modifies this`settings
      ensures Valid() && settings == old(settings).(invertPitchWhenUpsideDown := invertPitchWhenUpsideDown)
    {
      settings := settings.(invertPitchWhenUpsideDown := invertPitchWhenUpsideDown);
    }

    method SetFreeMoveEnabled(freeMove: bool)
      requires Valid()
      modifies this`settings
      ensures Valid() && settings == old(settings).(freeMove := freeMove)
    {
      settings := settings.(freeMove := freeMove);
    }

    method SetInvertForwardMovementWhileUpsideDownEnabled(invertForwardMovementWhenUpsideDown: bool)
      requires Valid()
      modifies this`settings
      ensures Valid() && settings == old(settings).(invertForwardMovementWhenUpsideDown := invertForwardMovementWhenUpsideDown)
    {
      settings := settings.(invertForwardMovementWhenUpsideDown := invertForwardMovementWhenUpsideDown);
    }

    method SetInvertVerticalMovementWhileUpsideDownEnabled(invertVerticalMovementWhenUpsideDown: bool)
      requires Valid()
      modifies this`settings
      ensures Valid() && settings == old(settings).(invertVerticalMovementWhenUpsideDown := invertVerticalMovementWhenUpsideDown)
    {
      settings := settings.(invertVerticalMovementWhenUpsideDown := invertVerticalMovementWhenUpsideDown);
    }

    /** One input tick. The pose fields are copied into working values,
        which the captured-mouse block moves and turns; the angles are then
        normalised, clamped and damped, and written back together with their
        last copies when the throttle allows. */
    method Input(deltaTime: real, f: InputFrame)
      requires Valid()
      modifies this
      ensures Valid()
      ensures Stores(Tick(old(State()), f, deltaTime))
    {
      ghost var c := State();
      if f.toggle3D {
        is3D := !is3D;
      }
      ghost var t := Toggled(c, f);
      assert Stores(t);
      if is3D {
        var work := pose;
        if f.captured {
          work := SteerBlock(deltaTime, f, t);
        }
        ghost var s := Steered(t, f);
        assert Stores(s);
        var candidate := SettleBlock(work);
        assert candidate == Candidate(t, f, deltaTime);
        SettleSpec(work, settings.freeLook);
        CommitBlock(f.now, candidate, s);
      }
    }

    /** The captured-mouse block of `Input`: the working pose is steered,
        then the zoom key sets the field of view and the reset key resets
        the fields. Only the zoom and the reset touch any field. */
    method SteerBlock(deltaTime: real, f: InputFrame, ghost t: Camera) returns (work: Pose)
      requires Valid() && Stores(t)
      modifies this`fovy, this`pose, this`zNear, this`zFar
      ensures Valid() && Stores(SteerFields(t, f))
      ensures work == Steer(t, f, deltaTime)
    {
      work := SteerPose(deltaTime, f, t);
      ZoomKey(f, t);
      ghost var zoomed := t.(fovy := ZoomKeys(t.fovy, f));
      if f.reset {
        ResetCameraFields(zoomed);
      }
    }

    /** The zoom key: pressing it zooms in, releasing it restores the normal
        field of view. */
    method ZoomKey(f: InputFrame, ghost t: Camera)
      requires Valid() && Stores(t)
      modifies this`fovy
      ensures Valid() && Stores(t.(fovy := ZoomKeys(t.fovy, f)))
    {
      var zoomed := fovy;
      if f.zoomPressed {
        zoomed := ZoomFovy;
      }
      if f.zoomReleased {
        zoomed := TargetFovy;
      }
      fovy := zoomed;
    }

    /** The captured-mouse block's working copies of the pose: the six
        movement keys, the mouse turn (yaw reversed when upside down with its
        invert switch, pitch when rolled over with its invert switch), the
        roll keys, the middle button clearing the zoom distance, and the
        reset key zeroing position and angles. No field changes. */
    method SteerPose(deltaTime: real, f: InputFrame, ghost t: Camera) returns (work: Pose)
      requires Stores(t)
      ensures work == Steer(t, f, deltaTime)
    {
      var zDist := pose.zDist;
      var p := SteerMoves(deltaTime, f);
      var yaw, pitch := MouseTurn(f, t);
      var roll := RollKeys(deltaTime, f, t);
      var x, y, z := p.x, p.y, p.z;
      if f.middleButton {
        zDist := 0.0;
      }
      if f.reset {
        x, y, z, yaw, pitch, roll := 0.0, 0.0, 0.0, 0.0, 0.0, 0.0;
      }
      work := Pose(x, y, z, zDist, yaw, pitch, roll);
    }

    /** The six movement key checks of the captured-mouse block, in order,
        each moving by `movementSpeed * deltaTime` from where the previous one
        left the position. */
    method SteerMoves(deltaTime: real, f: InputFrame) returns (p: Position)
      ensures p == SteerPosition(pose, modelView, settings, f, deltaTime)
    {
      var m, amount, mode, upsideDown := modelView, MoveAmount(settings, deltaTime), ModeOf(settings), UpsideDown(modelView);
      p := pose.Position();
      ghost var start := p;
      if f.forward { p := Move(p, Forward, m, amount, mode, upsideDown); }
      assert p == MovedBy(start, f, 1, m, amount, mode, upsideDown);
      if f.backward { p := Move(p, Backward, m, amount, mode, upsideDown); }
      assert p == MovedBy(start, f, 2, m, amount, mode, upsideDown);
      if f.left { p := Move(p, Left, m, amount, mode, upsideDown); }
      assert p == MovedBy(start, f, 3, m, amount, mode, upsideDown);
      if f.right { p := Move(p, Right, m, amount, mode, upsideDown); }
      assert p == MovedBy(start, f, 4, m, amount, mode, upsideDown);
      if f.up { p := Move(p, Up, m, amount, mode, upsideDown); }
      assert p == MovedBy(start, f, 5, m, amount, mode, upsideDown);
      if f.down { p := Move(p, Down, m, amount, mode, upsideDown); }
    }

    /** The mouse turn: the mouse motion scaled by the sensitivity and the
        zoom, the yaw part reversed when upside down with its invert switch
        on, the pitch part when rolled over with its invert switch on. */
    method MouseTurn(f: InputFrame, ghost t: Camera) returns (yaw: real, pitch: real)
      requires Stores(t)
      ensures yaw == SteerYaw(t, f) && pitch == SteerPitch(t, f)
    {
      var upsideDown := IsCameraUpsideDown();
      var rolledOver := 90.0 < pose.roll < 270.0;
      var scale := settings.mouseSensitivity * (fovy / TargetFovy);
      yaw := pose.yaw + f.dx as real * scale * FlipFactor(upsideDown && settings.invertYawWhenUpsideDown);
      pitch := pose.pitch + f.dy as real * scale * FlipFactor(rolledOver && settings.invertPitchWhenUpsideDown);
      FlipFactorSigned(f.dx as real * scale, upsideDown && settings.invertYawWhenUpsideDown);
      FlipFactorSigned(f.dy as real * scale, rolledOver && settings.invertPitchWhenUpsideDown);
    }

    /** The roll keys: `[` rolls left and `]` rolls right by 100 degrees per
        second, scaled like the mouse turn. */
    method RollKeys(deltaTime: real, f: InputFrame, ghost t: Camera) returns (roll: real)
      requires Stores(t)
      ensures roll == SteerRoll(t, f, deltaTime)
    {
      var scale := settings.mouseSensitivity * (fovy / TargetFovy);
      roll := pose.roll;
      if f.rollLeft {
        roll := roll - deltaTime * scale * 100.0;
      }
      if f.rollRight {
        roll := roll + deltaTime * scale * 100.0;
      }
    }

    /** The angle step of `Input`: normalise all three angles, then, with
        free-look off, clamp the pitch and settle the roll. */
    method SettleBlock(work: Pose) returns (candidate: Pose)
      ensures candidate == Settle(work, settings.freeLook)
    {
      var yaw := Normalise(work.yaw);
      var pitch := Normalise(work.pitch);
      var roll := Normalise(work.roll);
      if !settings.freeLook {
        pitch := ClampPitch(pitch);
        roll := DampRoll(roll);
      }
      candidate := work.(yaw := yaw, pitch := pitch, roll := roll);
    }

    /** The write-back of `Input`: when a second has passed since the last
        write, or any component differs from its last written copy, the pose
        and its copy both become the candidate and the time is recorded. */
    method CommitBlock(now: int, candidate: Pose, ghost s: Camera)
      requires Valid() && Stores(s) && AnglesInRange(candidate)
      modifies this`lastSecond, this`pose, this`last
      ensures Valid() && Stores(Commit(s, candidate, now))
    {
      if now - lastSecond >= CommitInterval || candidate != last {
        lastSecond := now;
        pose := candidate;
        last := candidate;
      }
      CommitFields(s, candidate, now);
    }

    /** A controller axis event. `active` stands for "the window is visible
        and the event comes from the first controller". Left stick x calls
        the right move and left stick y the backward move, each for a frame
        time of `deltaTime * value`; right stick x and y turn yaw and pitch,
        which are then normalised, clamped with free-look off, and copied
        into their last values. */
    method OnControllerAxisNonZero(active: bool, axis: Axis, value: real, deltaTime: real)
      requires Valid()
      modifies this`pose, this`last
      ensures Valid()
      ensures Stores(AxisEvent(old(State()), active, axis, value, deltaTime))
    {
      ghost var c := State();
      AxisPreservesValid(c, active, axis, value, deltaTime);
      if active {
        if axis == LeftX {
          StickMoveStep(Right, deltaTime * value, c);
        } else if axis == LeftY {
          StickMoveStep(Backward, deltaTime * value, c);
        } else if axis == RightX || axis == RightY {
          StickTurnStep(axis == RightX, value, deltaTime, c);
        }
      }
    }

    /** A left-stick event: the right move for stick x, the backward move for
        stick y. */
    method StickMoveStep(d: Direction, scaledTime: real, ghost c: Camera)
      requires Stores(c) && (d == Right || d == Backward)
      modifies this`pose
      ensures Stores(StickMove(c, d, scaledTime))
    {
      StickMoveMatchesSource(c, d, scaledTime);
      if d == Right {
        MoveRight(scaledTime);
      } else {
        MoveBackward(scaledTime);
      }
    }

    /** A right-stick event: yaw for stick x, pitch for stick y, reversed
        when upside down with the matching invert switch (pitch only when
        also rolled over); then both normalised, the pitch clamped with
        free-look off, and both copied into their last values. */
    method StickTurnStep(yawAxis: bool, value: real, deltaTime: real, ghost c: Camera)
      requires Stores(c)
      modifies this`pose, this`last
      ensures Stores(StickTurn(c, yawAxis, value, deltaTime))
    {
      var upsideDown := IsCameraUpsideDown();
      var rolledOver := 90.0 < pose.roll < 270.0;
      var yaw, pitch := pose.yaw, pose.pitch;
      var turn := StickTurnAmount(value, settings, fovy);
      if yawAxis {
        yaw := StickStep(yaw, turn, upsideDown && settings.invertYawWhenUpsideDown, deltaTime);
      }
      if !yawAxis {
        pitch := StickStep(pitch, turn, upsideDown && rolledOver && settings.invertPitchWhenUpsideDown, deltaTime);
      }
      yaw := Normalise(yaw);
      pitch := Normalise(pitch);
      if !settings.freeLook {
        pitch := ClampPitch(pitch);
      }
      pose, last := pose.(yaw := yaw, pitch := pitch), last.(yaw := yaw, pitch := pitch);
    }
  }
}
