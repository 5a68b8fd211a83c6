/** The camera's state and the pure rules by which one input tick and one
    controller-axis event change it. The `TestGame` class carries out these
    rules step by step on its fields; the lemmas here say what the rules
    guarantee. */
module CameraTick {
  import opened Angles
  import opened ViewMatrix
  import opened Movement

  /** The field of view the camera returns to, and the one the zoom key
      selects. Neither is ever reassigned. */
  const TargetFovy: real := 70.0
  const ZoomFovy: real := 20.0

  const DefaultZNear: real := 0.01
  const DefaultZFar: real := 1000.0

  /** Milliseconds after which the pose is written back even if unchanged. */
  const CommitInterval: int := 1000

  /** The seven pose components that the tick compares and writes back. */
  datatype Pose = Pose(x: real, y: real, z: real, zDist: real,
                       yaw: real, pitch: real, roll: real)
  {
    function Position(): Position
    {
      Movement.Position(x, y, z)
    }

    function At(p: Position): Pose
    {
      this.(x := p.x, y := p.y, z := p.z)
    }
  }

  const Origin: Pose := Pose(0.0, 0.0, 0.0, 0.0, 0.0, 0.0, 0.0)

  /** The look and move switches and the two tuning values: what only the
      setters change. */
  datatype Settings = Settings(
    freeLook: bool, invertYawWhenUpsideDown: bool, invertPitchWhenUpsideDown: bool,
    freeMove: bool, invertForwardMovementWhenUpsideDown: bool,
    invertVerticalMovementWhenUpsideDown: bool,
    mouseSensitivity: real, movementSpeed: real)

  /** The settings a new camera starts with: every switch off, sensitivity
      0.15 and speed 1.2. */
  const DefaultSettings: Settings := Settings(false, false, false, false, false, false, 0.15, 1.2)

  /** Everything the camera keeps between ticks: the 2D/3D switch, the live
      pose and its last written copy, the projection fields, the last view
      matrix, the settings, and the time of the last write. */
  datatype Camera = Camera(
    is3D: bool,
    pose: Pose,
    last: Pose,
    fovy: real, zNear: real, zFar: real,
    modelView: Matrix,
    settings: Settings,
    lastSecond: int)

  /** The three move switches as the movement rules take them. */
  function ModeOf(s: Settings): MoveMode
  {
    MoveMode(s.freeMove, s.invertForwardMovementWhenUpsideDown, s.invertVerticalMovementWhenUpsideDown)
  }

  /** The distance one move covers in `deltaTime` seconds. */
  function MoveAmount(s: Settings, deltaTime: real): real
  {
    s.movementSpeed * deltaTime
  }

  /** Mouse sensitivity scaled by how far the camera is zoomed in. */
  function RotationScale(c: Camera): real
  {
    c.settings.mouseSensitivity * (c.fovy / TargetFovy)
  }

  /** An angle a normalisation can produce. */
  predicate AngleInRange(a: real)
  {
    -360.0 < a < 360.0
  }

  predicate AnglesInRange(p: Pose)
  {
    AngleInRange(p.yaw) && AngleInRange(p.pitch) && AngleInRange(p.roll)
  }

  /** What every camera state satisfies: the live and last angles are
      results of normalisation (or 0), and the field of view is one of the
      two the camera switches between. `ValidScalesTurns` and
      `ValidAnglesNormalise` state what each half buys: the turn scale is
      the plain or the 20/70 sensitivity, and an angle a tick leaves
      unturned normalises into [0, 360), where the clamp and the damping
      read it correctly. */
  predicate CameraValid(c: Camera)
  {
    AnglesInRange(c.pose) && AnglesInRange(c.last) &&
    (c.fovy == TargetFovy || c.fovy == ZoomFovy)
  }

  /** The state a new camera starts in. */
  function InitialCamera(view: Matrix): (c: Camera)
    ensures CameraValid(c) && !c.is3D && c.pose == Origin && c.last == Origin
  {
    Camera(false, Origin, Origin, TargetFovy, DefaultZNear, DefaultZFar, view, DefaultSettings, 0)
  }

  /** The field of view after a reset: kept when it is the normal or the
      zoomed one, otherwise the normal one. */
  function ResetFovy(fovy: real): (r: real)
    ensures r == TargetFovy || r == ZoomFovy
    ensures (fovy == TargetFovy || fovy == ZoomFovy) <==> r == fovy
  {
    if fovy == TargetFovy || fovy == ZoomFovy then fovy else TargetFovy
  }

  /** The camera after a field reset: pose zeroed, clip planes restored, field
      of view settled; the last written copy of the pose is not touched. */
  function ResetFields(c: Camera): Camera
  {
    c.(pose := Origin, zNear := DefaultZNear, zFar := DefaultZFar, fovy := ResetFovy(c.fovy))
  }

  /** One tick's keys, mouse motion and clock reading. `toggle3D`: M was
      just pressed; `captured`: the mouse is captured and listening;
      `forward` to `down`: W, S, A, D, space, left shift held; `dx`, `dy`:
      mouse motion; `rollLeft`, `rollRight`: [ and ] held; `zoomPressed`,
      `zoomReleased`: Z just pressed or released; `middleButton`: middle
      mouse button held; `reset`: R held; `now`: wall-clock milliseconds. */
  datatype InputFrame = InputFrame(
    toggle3D: bool, captured: bool,
    forward: bool, backward: bool, left: bool, right: bool, up: bool, down: bool,
    dx: int, dy: int,
    rollLeft: bool, rollRight: bool,
    zoomPressed: bool, zoomReleased: bool,
    middleButton: bool, reset: bool,
    now: int)

  /** The direction of movement key `k` in the order the tick checks them:
      W, S, A, D, space, left shift. */
  function KeyDirection(k: nat): Direction
    requires k < 6
  {
    if k == 0 then Forward else if k == 1 then Backward else if k == 2 then Left
    else if k == 3 then Right else if k == 4 then Up else Down
  }

  /** Whether movement key `k` is held in `f`. */
  predicate KeyHeld(f: InputFrame, k: nat)
    requires k < 6
  {
    if k == 0 then f.forward else if k == 1 then f.backward else if k == 2 then f.left
    else if k == 3 then f.right else if k == 4 then f.up else f.down
  }

  /** The first `n` movement keys applied in order to a position: each held
      key moves it one step from where the previous keys left it. */
  function MovedBy(p: Position, f: InputFrame, n: nat, m: Matrix, amount: real, mode: MoveMode,
                   upsideDown: bool): Position
    requires n <= 6
  {
    if n == 0 then p
    else
      var q := MovedBy(p, f, n - 1, m, amount, mode, upsideDown);
      if KeyHeld(f, n - 1) then Move(q, KeyDirection(n - 1), m, amount, mode, upsideDown) else q
  }

  /** The working pose after the captured-mouse block: moves, mouse yaw and
      pitch (yaw reversed when upside down with its invert switch, pitch
      reversed when rolled over with its invert switch), roll keys, the
      middle button clearing the zoom distance, and the reset key zeroing
      position and angles (but not the working zoom distance). */
  function Steer(c: Camera, f: InputFrame, deltaTime: real): Pose
  {
    var pos := SteerPosition(c.pose, c.modelView, c.settings, f, deltaTime);
    var zDist := if f.middleButton then 0.0 else c.pose.zDist;
    if f.reset then Origin.(zDist := zDist)
    else Pose(pos.x, pos.y, pos.z, zDist, SteerYaw(c, f), SteerPitch(c, f), SteerRoll(c, f, deltaTime))
  }

  /** The position after the six movement keys. */
  function SteerPosition(p: Pose, m: Matrix, s: Settings, f: InputFrame, deltaTime: real): Position
  {
    MovedBy(p.Position(), f, 6, m, MoveAmount(s, deltaTime), ModeOf(s), UpsideDown(m))
  }

  /** The yaw after the mouse's horizontal motion, reversed when the view is
      upside down and its invert switch is on. */
  function SteerYaw(c: Camera, f: InputFrame): real
  {
    c.pose.yaw + Signed(f.dx as real * RotationScale(c), UpsideDown(c.modelView) && c.settings.invertYawWhenUpsideDown)
  }

  /** The pitch after the mouse's vertical motion, reversed when the roll is
      strictly between 90 and 270 degrees and its invert switch is on. */
  function SteerPitch(c: Camera, f: InputFrame): real
  {
    c.pose.pitch + Signed(f.dy as real * RotationScale(c), 90.0 < c.pose.roll < 270.0 && c.settings.invertPitchWhenUpsideDown)
  }

  /** The roll after the roll-left and roll-right keys, each a step of
      100 degrees per second scaled like the mouse turn. */
  function SteerRoll(c: Camera, f: InputFrame, deltaTime: real): real
  {
    var rollStep := deltaTime * RotationScale(c) * 100.0;
    var roll1 := if f.rollLeft then c.pose.roll - rollStep else c.pose.roll;
    if f.rollRight then roll1 + rollStep else roll1
  }

  /** The six movement keys in opposing pairs cancel out: with forward and
      backward, left and right, and up and down each either both held or both
      released, the position is where it started. */
  lemma OpposingKeysCancel(p: Pose, m: Matrix, s: Settings, f: InputFrame, deltaTime: real)
    requires f.forward == f.backward && f.left == f.right && f.up == f.down
    ensures SteerPosition(p, m, s, f, deltaTime) == p.Position()
  {
    var start, amount, mode, upsideDown := p.Position(), MoveAmount(s, deltaTime), ModeOf(s), UpsideDown(m);
    PairCancels(start, f, 0, m, amount, mode, upsideDown);
    PairCancels(start, f, 2, m, amount, mode, upsideDown);
    PairCancels(start, f, 4, m, amount, mode, upsideDown);
  }

  /** Keys `k` and `k + 1` form an opposing pair; when both or neither are
      held, the position after them is the position before them. */
  lemma PairCancels(p: Position, f: InputFrame, k: nat, m: Matrix, amount: real, mode: MoveMode,
                    upsideDown: bool)
    requires k == 0 || k == 2 || k == 4
    requires KeyHeld(f, k) == KeyHeld(f, k + 1)
    requires MovedBy(p, f, k, m, amount, mode, upsideDown) == p
    ensures MovedBy(p, f, k + 2, m, amount, mode, upsideDown) == p
  {
    var d := KeyDirection(k);
    assert KeyDirection(k + 1) == Opposite(d);
    if KeyHeld(f, k) {
      MoveInverse(p, d, m, amount, mode, upsideDown);
    }
  }

  /** The mouse turns the yaw by the horizontal motion times the
      zoom-scaled sensitivity. When the view is upside down and the yaw
      invert switch is on, the turn is exactly the negation of the turn with
      the switch off; otherwise the switch makes no difference. */
  lemma SteerYawInverts(c: Camera, f: InputFrame)
    ensures var plain := c.(settings := c.settings.(invertYawWhenUpsideDown := false));
      SteerYaw(plain, f) - c.pose.yaw == f.dx as real * RotationScale(c)
    ensures var plain := c.(settings := c.settings.(invertYawWhenUpsideDown := false));
      SteerYaw(c, f) - c.pose.yaw ==
        if UpsideDown(c.modelView) && c.settings.invertYawWhenUpsideDown
        then -(SteerYaw(plain, f) - c.pose.yaw)
        else SteerYaw(plain, f) - c.pose.yaw
  {
    var plain := c.(settings := c.settings.(invertYawWhenUpsideDown := false));
    assert RotationScale(plain) == RotationScale(c);
  }

  /** The same for the pitch, where the reversal depends on the roll before
      this tick's roll keys being strictly between 90 and 270 degrees and on
      the pitch invert switch. */
  lemma SteerPitchInverts(c: Camera, f: InputFrame)
    ensures var plain := c.(settings := c.settings.(invertPitchWhenUpsideDown := false));
      SteerPitch(plain, f) - c.pose.pitch == f.dy as real * RotationScale(c)
    ensures var plain := c.(settings := c.settings.(invertPitchWhenUpsideDown := false));
      SteerPitch(c, f) - c.pose.pitch ==
        if 90.0 < c.pose.roll < 270.0 && c.settings.invertPitchWhenUpsideDown
        then -(SteerPitch(plain, f) - c.pose.pitch)
        else SteerPitch(plain, f) - c.pose.pitch
  {
    var plain := c.(settings := c.settings.(invertPitchWhenUpsideDown := false));
    assert RotationScale(plain) == RotationScale(c);
  }

  /** Zoomed in, every turn is 20/70 of the same turn at the normal field of
      view: mouse yaw, mouse pitch and the roll keys alike. */
  lemma ZoomScalesTurns(c: Camera, f: InputFrame, deltaTime: real)
    ensures var zoomed, normal := c.(fovy := ZoomFovy), c.(fovy := TargetFovy);
      SteerYaw(zoomed, f) - c.pose.yaw == (ZoomFovy / TargetFovy) * (SteerYaw(normal, f) - c.pose.yaw)
    ensures var zoomed, normal := c.(fovy := ZoomFovy), c.(fovy := TargetFovy);
      SteerPitch(zoomed, f) - c.pose.pitch == (ZoomFovy / TargetFovy) * (SteerPitch(normal, f) - c.pose.pitch)
    ensures var zoomed, normal := c.(fovy := ZoomFovy), c.(fovy := TargetFovy);
      SteerRoll(zoomed, f, deltaTime) - c.pose.roll == (ZoomFovy / TargetFovy) * (SteerRoll(normal, f, deltaTime) - c.pose.roll)
  {
    var zoomed, normal := c.(fovy := ZoomFovy), c.(fovy := TargetFovy);
    var sens := c.settings.mouseSensitivity;
    assert RotationScale(normal) == sens;
    assert RotationScale(zoomed) == (ZoomFovy / TargetFovy) * sens;
    ScaledTurn(f.dx as real, sens, UpsideDown(c.modelView) && c.settings.invertYawWhenUpsideDown);
    ScaledTurn(f.dy as real, sens, 90.0 < c.pose.roll < 270.0 && c.settings.invertPitchWhenUpsideDown);
    ScaledTurn(deltaTime * 100.0, sens, false);
  }

  lemma ScaledTurn(motion: real, sens: real, flip: bool)
    ensures Signed(motion * ((ZoomFovy / TargetFovy) * sens), flip) == (ZoomFovy / TargetFovy) * Signed(motion * sens, flip)
  {
  }

  /** The roll keys: `[` alone rolls left by the zoom-scaled step of 100
      degrees per second, `]` alone rolls right by it, and both together
      cancel out. */
  lemma RollKeysStep(c: Camera, f: InputFrame, deltaTime: real)
    ensures var step := deltaTime * RotationScale(c) * 100.0;
      SteerRoll(c, f, deltaTime) ==
        if f.rollLeft && !f.rollRight then c.pose.roll - step
        else if f.rollRight && !f.rollLeft then c.pose.roll + step
        else c.pose.roll
  {
  }

  /** What the captured-mouse block does to the camera's own fields: the
      zoom key's press and release set the field of view, and the reset key
      resets the fields. */
  function SteerFields(c: Camera, f: InputFrame): Camera
  {
    var zoomed := c.(fovy := ZoomKeys(c.fovy, f));
    if f.reset then ResetFields(zoomed) else zoomed
  }

  /** The field of view after the zoom key: the press zooms in, the release
      (checked second) restores the normal view. */
  function ZoomKeys(fovy: real, f: InputFrame): real
  {
    var f1 := if f.zoomPressed then ZoomFovy else fovy;
    if f.zoomReleased then TargetFovy else f1
  }

  /** The captured block's field changes one by one: the zoom key's field
      of view, and with the reset key a zeroed pose, default clip planes and
      the reset rule applied to that field of view; nothing else changes. */
  lemma SteerFieldsSpec(c: Camera, f: InputFrame)
    ensures var r := SteerFields(c, f);
      var zoomed := if f.zoomReleased then TargetFovy else if f.zoomPressed then ZoomFovy else c.fovy;
      r.fovy == (if f.reset then ResetFovy(zoomed) else zoomed) &&
      r.pose == (if f.reset then Origin else c.pose) &&
      r.zNear == (if f.reset then DefaultZNear else c.zNear) &&
      r.zFar == (if f.reset then DefaultZFar else c.zFar) &&
      SameSettings(r, c) && r.is3D == c.is3D && r.last == c.last && r.lastSecond == c.lastSecond
  {
  }

  /** Normalisation of all three angles, then, with free-look off, the pitch
      clamp and the roll settle step. */
  function Settle(p: Pose, freeLook: bool): Pose
  {
    var yaw := Normalise(p.yaw);
    var pitch := Normalise(p.pitch);
    var roll := Normalise(p.roll);
    if freeLook then p.(yaw := yaw, pitch := pitch, roll := roll)
    else p.(yaw := yaw, pitch := ClampPitch(pitch), roll := DampRoll(roll))
  }

  /** The commit throttle: write when a second has passed since the last
      write or when any of the seven components differs from its last
      written value. */
  predicate ShouldCommit(now: int, lastSecond: int, candidate: Pose, last: Pose)
  {
    now - lastSecond >= CommitInterval || candidate != last
  }

  /** The write-back: live pose and last written copy both become the
      candidate and the write time is recorded; otherwise nothing changes. */
  function Commit(c: Camera, candidate: Pose, now: int): Camera
  {
    if ShouldCommit(now, c.lastSecond, candidate, c.last)
    then c.(pose := candidate, last := candidate, lastSecond := now)
    else c
  }

  /** The write-back field by field: pose, last copy and write time change
      together or not at all, and nothing else changes. */
  lemma CommitFields(c: Camera, candidate: Pose, now: int)
    ensures var r := Commit(c, candidate, now);
      var write := ShouldCommit(now, c.lastSecond, candidate, c.last);
      r.pose == (if write then candidate else c.pose) &&
      r.last == (if write then candidate else c.last) &&
      r.lastSecond == (if write then now else c.lastSecond) &&
      SameSettings(r, c) && r.is3D == c.is3D && r.fovy == c.fovy &&
      r.zNear == c.zNear && r.zFar == c.zFar
  {
    if ShouldCommit(now, c.lastSecond, candidate, c.last) {
      assert Commit(c, candidate, now) == c.(pose := candidate, last := candidate, lastSecond := now);
    } else {
      assert Commit(c, candidate, now) == c;
    }
  }

  /** The camera after the 2D/3D toggle. */
  function Toggled(c: Camera, f: InputFrame): Camera
  {
    c.(is3D := c.is3D != f.toggle3D)
  }

  /** The pose a 3D tick offers for writing back. */
  function Candidate(c: Camera, f: InputFrame, deltaTime: real): Pose
  {
    Settle(if f.captured then Steer(c, f, deltaTime) else c.pose, c.settings.freeLook)
  }

  /** The fields a 3D tick writes back into. */
  function Steered(c: Camera, f: InputFrame): Camera
  {
    if f.captured then SteerFields(c, f) else c
  }

  /** One input tick: toggle, and in 3D mode steer, settle and commit. */
  function Tick(c: Camera, f: InputFrame, deltaTime: real): Camera
  {
    var t := Toggled(c, f);
    if !t.is3D then t
    else Commit(Steered(t, f), Candidate(t, f, deltaTime), f.now)
  }

  /** Settling always yields normalised angles and leaves position and zoom
      distance alone. With free-look off, the pitch is never past vertical
      and the roll is in [0, 360), either level or at least 0.01 from it.
      Angles already above -360 come out in [0, 360). */
  lemma SettleSpec(p: Pose, freeLook: bool)
    ensures var q := Settle(p, freeLook);
      AnglesInRange(q) && q.Position() == p.Position() && q.zDist == p.zDist
    ensures p.yaw > -360.0 ==> 0.0 <= Settle(p, freeLook).yaw < 360.0
    ensures freeLook && p.pitch > -360.0 ==> 0.0 <= Settle(p, freeLook).pitch < 360.0
    ensures freeLook && p.roll > -360.0 ==> 0.0 <= Settle(p, freeLook).roll < 360.0
    ensures !freeLook ==>
      var q := Settle(p, freeLook);
      !PastVertical(q.pitch) && 0.0 <= q.roll < 360.0 &&
      (q.roll == 0.0 || 0.01 <= q.roll <= 359.99)
  {
    NormaliseRange(p.yaw);
    NormaliseRange(p.pitch);
    NormaliseRange(p.roll);
    ClampPitchSpec(Normalise(p.pitch));
    DampRollRange(Normalise(p.roll));
  }

  /** A pose with angles in [0, 360) is left as it is by settling with
      free-look on; with free-look off it must also be level and not pitched
      past vertical. */
  predicate AtRest(p: Pose, freeLook: bool)
  {
    0.0 <= p.yaw < 360.0 && 0.0 <= p.pitch < 360.0 && 0.0 <= p.roll < 360.0 &&
    (!freeLook ==> !PastVertical(p.pitch) && p.roll == 0.0)
  }

  lemma SettleAtRest(p: Pose, freeLook: bool)
    requires AtRest(p, freeLook)
    ensures Settle(p, freeLook) == p
  {
    NormaliseIdentity(p.yaw);
    NormaliseIdentity(p.pitch);
    NormaliseIdentity(p.roll);
    if !freeLook {
      ClampPitchSpec(p.pitch);
      DampRollKeepsLevel();
    }
  }

  /** The commit law of a 3D tick: when the throttle lets the write through,
      live pose and last copy both equal the candidate and the write time is
      now; otherwise the last copy and the write time are kept and the live
      pose is whatever the captured block left in the fields. */
  lemma TickCommit(c: Camera, f: InputFrame, deltaTime: real)
    requires Toggled(c, f).is3D
    ensures var t := Toggled(c, f);
      var r := Tick(c, f, deltaTime);
      var cand := Candidate(t, f, deltaTime);
      if ShouldCommit(f.now, c.lastSecond, cand, c.last)
      then r.pose == cand && r.last == cand && r.lastSecond == f.now
      else r.last == c.last && r.lastSecond == c.lastSecond && r.pose == Steered(t, f).pose
  {
    var t := Toggled(c, f);
    var s := Steered(t, f);
    var cand := Candidate(t, f, deltaTime);
    SteeredKeeps(t, f);
    assert Tick(c, f, deltaTime) == Commit(s, cand, f.now);
    if ShouldCommit(f.now, c.lastSecond, cand, c.last) {
      assert Commit(s, cand, f.now) == s.(pose := cand, last := cand, lastSecond := f.now);
    } else {
      assert Commit(s, cand, f.now) == s;
    }
  }

  /** The settings a tick leaves alone: view matrix, look and move switches
      and tuning values. */
  predicate SameSettings(a: Camera, b: Camera)
  {
    a.modelView == b.modelView && a.settings == b.settings
  }

  lemma CommitKeeps(c: Camera, candidate: Pose, now: int)
    ensures var r := Commit(c, candidate, now);
      SameSettings(r, c) && r.is3D == c.is3D && r.fovy == c.fovy &&
      r.zNear == c.zNear && r.zFar == c.zFar
  {
    if ShouldCommit(now, c.lastSecond, candidate, c.last) {
      assert Commit(c, candidate, now) == c.(pose := candidate, last := candidate, lastSecond := now);
    } else {
      assert Commit(c, candidate, now) == c;
    }
  }

  lemma SteeredKeeps(c: Camera, f: InputFrame)
    ensures var r := Steered(c, f);
      SameSettings(r, c) && r.is3D == c.is3D && r.last == c.last && r.lastSecond == c.lastSecond
    ensures !f.captured ==> Steered(c, f) == c
  {
  }

  /** A tick never changes the settings, and flips the 2D/3D switch exactly
      when M was pressed. */
  lemma TickFrame(c: Camera, f: InputFrame, deltaTime: real)
    ensures SameSettings(Tick(c, f, deltaTime), c)
    ensures Tick(c, f, deltaTime).is3D == (c.is3D != f.toggle3D)
  {
    var t := Toggled(c, f);
    if t.is3D {
      SteeredKeeps(t, f);
      CommitKeeps(Steered(t, f), Candidate(t, f, deltaTime), f.now);
    }
  }

  /** In 2D mode, with no toggle, a tick changes nothing. */
  lemma TickIn2DIsIdle(c: Camera, f: InputFrame, deltaTime: real)
    requires !c.is3D && !f.toggle3D
    ensures Tick(c, f, deltaTime) == c
  {
  }

  /** A 3D tick without mouse capture, on a pose at rest that equals its last
      written copy, less than a second after the last write, changes
      nothing. */
  lemma TickIdle(c: Camera, f: InputFrame, deltaTime: real)
    requires c.is3D && !f.toggle3D && !f.captured
    requires AtRest(c.pose, c.settings.freeLook) && c.pose == c.last
    requires f.now - c.lastSecond < CommitInterval
    ensures Tick(c, f, deltaTime) == c
  {
    SettleAtRest(c.pose, c.settings.freeLook);
    assert Toggled(c, f) == c;
  }

  /** A 3D tick with free-look off leaves a pitch that is not past vertical
      and a roll in [0, 360) in the pose it writes back. */
  lemma TickLevelsCamera(c: Camera, f: InputFrame, deltaTime: real)
    requires Toggled(c, f).is3D && !c.settings.freeLook
    ensures var cand := Candidate(Toggled(c, f), f, deltaTime);
      !PastVertical(cand.pitch) && 0.0 <= cand.roll < 360.0
  {
    var t := Toggled(c, f);
    SettleSpec(if f.captured then Steer(t, f, deltaTime) else t.pose, t.settings.freeLook);
  }

  /** A frame that leaves the roll to the settle step: no 2D/3D toggle and,
      while the mouse is captured, neither roll key nor the reset key. */
  predicate RollUntouched(f: InputFrame)
  {
    !f.toggle3D && (f.captured ==> !f.rollLeft && !f.rollRight && !f.reset)
  }

  /** With free-look off, a 3D tick that does not touch the roll damps it:
      starting from a pose equal to its last copy with the roll in [0, 360),
      the new roll is `DampRoll` of the old one, whether or not the tick
      writes back, and the camera is again in 3D with the same settings, a
      pose equal to its last copy and a roll in [0, 360). */
  lemma TickDampsRoll(c: Camera, f: InputFrame, deltaTime: real)
    requires c.is3D && !c.settings.freeLook && RollUntouched(f)
    requires c.pose == c.last && 0.0 <= c.pose.roll < 360.0
    ensures var r := Tick(c, f, deltaTime);
      r.pose.roll == DampRoll(c.pose.roll) && r.pose == r.last && 0.0 <= r.pose.roll < 360.0 &&
      r.is3D && r.settings == c.settings
  {
    var t := Toggled(c, f);
    assert t == c;
    var local := if f.captured then Steer(c, f, deltaTime) else c.pose;
    assert local.roll == c.pose.roll;
    NormaliseIdentity(c.pose.roll);
    var cand := Candidate(c, f, deltaTime);
    assert cand.roll == DampRoll(c.pose.roll);
    DampRollRange(c.pose.roll);
    var s := Steered(c, f);
    SteeredKeeps(c, f);
    assert s.pose == c.pose;
    TickFrame(c, f, deltaTime);
    assert Tick(c, f, deltaTime) == Commit(s, cand, f.now);
    CommitFields(s, cand, f.now);
  }

  /** The camera after a run of ticks, one per frame. */
  function Run(c: Camera, fs: seq<InputFrame>, deltaTime: real): Camera
    decreases |fs|
  {
    if fs == [] then c else Run(Tick(c, fs[0], deltaTime), fs[1..], deltaTime)
  }

  /** Over a run of frames that do not touch the roll, the roll follows the
      settle step tick by tick. */
  lemma {:induction false} RunSettlesRoll(c: Camera, fs: seq<InputFrame>, deltaTime: real)
    requires c.is3D && !c.settings.freeLook && c.pose == c.last && 0.0 <= c.pose.roll < 360.0
    requires forall i :: 0 <= i < |fs| ==> RollUntouched(fs[i])
    ensures Run(c, fs, deltaTime).pose.roll == SettleRoll(c.pose.roll, |fs|)
    decreases |fs|
  {
    if fs != [] {
      var next := Tick(c, fs[0], deltaTime);
      TickDampsRoll(c, fs[0], deltaTime);
      assert forall i :: 0 <= i < |fs[1..]| ==> RollUntouched(fs[1..][i]) by {
        forall i | 0 <= i < |fs[1..]| ensures RollUntouched(fs[1..][i]) {
          assert fs[1..][i] == fs[i + 1];
        }
      }
      RunSettlesRoll(next, fs[1..], deltaTime);
      SettleRollShift(c.pose.roll, |fs| - 1);
    }
  }

  /** With free-look off, any 211 or more ticks that do not touch the roll
      bring it to exactly level, from any roll in [0, 360). */
  lemma RunLevelsRoll(c: Camera, fs: seq<InputFrame>, deltaTime: real)
    requires c.is3D && !c.settings.freeLook && c.pose == c.last && 0.0 <= c.pose.roll < 360.0
    requires forall i :: 0 <= i < |fs| ==> RollUntouched(fs[i])
    requires |fs| >= 211
    ensures Run(c, fs, deltaTime).pose.roll == 0.0
  {
    RunSettlesRoll(c, fs, deltaTime);
    SettleRollReachesLevel(c.pose.roll, |fs|);
  }

  /** The clamp and the damping judge angles as if they were in [0, 360).
      A turn that carries a working angle to -360 or below leaves it negative
      after normalisation, and then they misjudge it: a pitch of -560
      normalises to -200, which is 160 degrees and past vertical, yet is not
      clamped; a roll of -710 normalises to -350, 10 degrees from level, and
      is damped to 27.5. */
  lemma SettleBelowOneTurn(p: Pose)
    requires p.pitch == -560.0 && p.roll == -710.0
    ensures Settle(p, false).pitch == -200.0 && PastVertical(-200.0 + 360.0)
    ensures Settle(p, false).roll == 27.5 && DistanceFromLevel(-350.0 + 360.0) == 10.0
  {
    NormaliseBelowOneTurn(-560.0);
    NormaliseBelowOneTurn(-710.0);
    assert Normalise(-350.0 * RollDamping) == 27.5 by {
      assert TruncateTowardZero((360.0 - 332.5) / 360.0) == 0;
    }
  }

  /** The reset key zeroes the written-back position and angles, but the
      written-back zoom distance is the working one: the field reset to 0
      is overwritten whenever the tick commits. */
  lemma ResetKeepsZoomDistance(c: Camera, f: InputFrame, deltaTime: real)
    requires Toggled(c, f).is3D && f.captured && f.reset
    ensures Candidate(Toggled(c, f), f, deltaTime) ==
      Origin.(zDist := if f.middleButton then 0.0 else c.pose.zDist)
  {
    var t := Toggled(c, f);
    var z := if f.middleButton then 0.0 else c.pose.zDist;
    SteerReset(t, f, deltaTime);
    SettleOrigin(z, t.settings.freeLook);
  }

  /** When the reset tick does not commit (the reset pose equals the last
      written one and less than a second has passed), the live pose is left
      at the field reset's all-zero value. */
  lemma ResetWithoutCommit(c: Camera, f: InputFrame, deltaTime: real)
    requires Toggled(c, f).is3D && f.captured && f.reset
    requires !ShouldCommit(f.now, c.lastSecond, Candidate(Toggled(c, f), f, deltaTime), c.last)
    ensures Tick(c, f, deltaTime).pose == Origin
  {
    var t := Toggled(c, f);
    var s := Steered(t, f);
    assert s.pose == Origin;
    SteeredKeeps(t, f);
    assert Tick(c, f, deltaTime) == Commit(s, Candidate(t, f, deltaTime), f.now);
  }

  lemma SteerReset(c: Camera, f: InputFrame, deltaTime: real)
    requires f.reset
    ensures Steer(c, f, deltaTime) == Origin.(zDist := if f.middleButton then 0.0 else c.pose.zDist)
  {
  }

  lemma SettleOrigin(zDist: real, freeLook: bool)
    ensures Settle(Origin.(zDist := zDist), freeLook) == Origin.(zDist := zDist)
  {
    NormaliseIdentity(0.0);
    DampRollKeepsLevel();
  }

  /** Every tick keeps the camera valid. */
  lemma TickPreservesValid(c: Camera, f: InputFrame, deltaTime: real)
    requires CameraValid(c)
    ensures CameraValid(Tick(c, f, deltaTime))
  {
    var t := Toggled(c, f);
    if t.is3D {
      var local := if f.captured then Steer(t, f, deltaTime) else t.pose;
      SettleSpec(local, t.settings.freeLook);
      SteeredValid(t, f);
      CommitValid(Steered(t, f), Candidate(t, f, deltaTime), f.now);
    }
  }

  lemma SteeredValid(c: Camera, f: InputFrame)
    requires CameraValid(c)
    ensures CameraValid(Steered(c, f))
  {
  }

  lemma CommitValid(c: Camera, candidate: Pose, now: int)
    requires CameraValid(c) && AnglesInRange(candidate)
    ensures CameraValid(Commit(c, candidate, now))
  {
  }

  /** With a valid field of view, turns are scaled by the plain
      sensitivity or by 20/70 of it, nothing else. */
  lemma ValidScalesTurns(c: Camera)
    requires CameraValid(c)
    ensures RotationScale(c) == c.settings.mouseSensitivity ||
            RotationScale(c) == (ZoomFovy / TargetFovy) * c.settings.mouseSensitivity
  {
    if c.fovy == TargetFovy {
      assert c.fovy / TargetFovy == 1.0;
    }
  }

  /** The stored angles of a valid camera lie above -360, so normalising
      them, as a tick does to an angle it leaves unturned, gives [0, 360). */
  lemma ValidAnglesNormalise(c: Camera)
    requires CameraValid(c)
    ensures 0.0 <= Normalise(c.pose.yaw) < 360.0
    ensures 0.0 <= Normalise(c.pose.pitch) < 360.0
    ensures 0.0 <= Normalise(c.pose.roll) < 360.0
  {
    NormaliseRange(c.pose.yaw);
    NormaliseRange(c.pose.pitch);
    NormaliseRange(c.pose.roll);
  }

  /** The controller axes that produce events. */
  datatype Axis = LeftX | LeftY | RightX | RightY | TriggerLeft | TriggerRight

  /** Turn rate factor of the right stick. */
  const StickTurnRate: real := 625.0

  /** A left-stick step: the move in direction `d` that the move methods make
      for a frame time of `scaledTime`. */
  function StickMove(c: Camera, d: Direction, scaledTime: real): Camera
  {
    c.(pose := c.pose.At(Move(c.pose.Position(), d, c.modelView, MoveAmount(c.settings, scaledTime), ModeOf(c.settings),
                              UpsideDown(c.modelView))))
  }

  /** A left-stick step in the coordinate form that the move methods
      write. */
  lemma StickMoveMatchesSource(c: Camera, d: Direction, scaledTime: real)
    ensures StickMove(c, d, scaledTime).pose ==
      c.pose.At(SourceMove(c.pose.Position(), d, c.modelView, MoveAmount(c.settings, scaledTime),
                           ModeOf(c.settings), UpsideDown(c.modelView)))
  {
    MoveMatchesSource(c.pose.Position(), d, c.modelView, MoveAmount(c.settings, scaledTime),
                      ModeOf(c.settings), UpsideDown(c.modelView));
  }

  /** The stick value scaled by the mouse sensitivity and the zoom. */
  function StickTurnAmount(value: real, s: Settings, fovy: real): real
  {
    value * s.mouseSensitivity * (fovy / TargetFovy)
  }

  /** One stick turn of an angle: the turn amount times the flip factor,
      at the stick turn rate for `deltaTime` seconds. */
  function StickStep(angle: real, turn: real, flip: bool, deltaTime: real): real
  {
    angle + turn * FlipFactor(flip) * StickTurnRate * deltaTime
  }

  /** The flip reverses the turn: the flipped step moves the angle by exactly
      the negation of the unflipped step. */
  lemma StickStepFlip(angle: real, turn: real, deltaTime: real)
    ensures StickStep(angle, turn, true, deltaTime) - angle == -(StickStep(angle, turn, false, deltaTime) - angle)
  {
    var t := turn * StickTurnRate;
    assert turn * FlipFactor(true) * StickTurnRate == -t;
    assert turn * FlipFactor(false) * StickTurnRate == t;
  }

  /** A right-stick turn: stick x (`yawAxis`) turns yaw, reversed when upside
      down with the yaw invert switch set; stick y turns pitch, reversed when
      upside down and rolled over with the pitch invert switch set. Then yaw
      and pitch are normalised, the pitch clamped with free-look off, and both
      copied into their last values. */
  function StickTurn(c: Camera, yawAxis: bool, value: real, deltaTime: real): Camera
  {
    var upsideDown := UpsideDown(c.modelView);
    var rolledOver := 90.0 < c.pose.roll < 270.0;
    var turn := StickTurnAmount(value, c.settings, c.fovy);
    var yaw := if yawAxis
      then StickStep(c.pose.yaw, turn, upsideDown && c.settings.invertYawWhenUpsideDown, deltaTime)
      else c.pose.yaw;
    var pitch := if !yawAxis
      then StickStep(c.pose.pitch, turn, upsideDown && rolledOver && c.settings.invertPitchWhenUpsideDown, deltaTime)
      else c.pose.pitch;
    var yaw' := Normalise(yaw);
    var pitch' := if c.settings.freeLook then Normalise(pitch) else ClampPitch(Normalise(pitch));
    c.(pose := c.pose.(yaw := yaw', pitch := pitch'),
       last := c.last.(yaw := yaw', pitch := pitch'))
  }

  /** One axis event. `active` stands for "the window is visible and the
      event comes from the first controller". Left stick x strafes right and
      left stick y moves backward, by the stick value times the frame time;
      right stick x and y turn; the triggers do nothing here. */
  function AxisEvent(c: Camera, active: bool, axis: Axis, value: real, deltaTime: real): Camera
  {
    if !active then c
    else match axis
      case LeftX => StickMove(c, Right, deltaTime * value)
      case LeftY => StickMove(c, Backward, deltaTime * value)
      case RightX => StickTurn(c, true, value, deltaTime)
      case RightY => StickTurn(c, false, value, deltaTime)
      case _ => c
  }

  /** A right-stick event leaves yaw and pitch normalised and equal to their
      last copies, with the pitch not past vertical when free-look is off;
      the other axis angle is only normalised, and roll and position are
      untouched. */
  lemma StickTurnSpec(c: Camera, yawAxis: bool, value: real, deltaTime: real)
    ensures var r := StickTurn(c, yawAxis, value, deltaTime);
      r.pose.yaw == r.last.yaw && r.pose.pitch == r.last.pitch &&
      AngleInRange(r.pose.yaw) && AngleInRange(r.pose.pitch) &&
      (!c.settings.freeLook ==> !PastVertical(r.pose.pitch)) &&
      (yawAxis ==> r.pose.pitch == (if c.settings.freeLook then Normalise(c.pose.pitch)
                                    else ClampPitch(Normalise(c.pose.pitch)))) &&
      (!yawAxis ==> r.pose.yaw == Normalise(c.pose.yaw)) &&
      r.pose.roll == c.pose.roll && r.pose.Position() == c.pose.Position() &&
      r.last.roll == c.last.roll
  {
    var upsideDown := UpsideDown(c.modelView);
    var rolledOver := 90.0 < c.pose.roll < 270.0;
    var turn := StickTurnAmount(value, c.settings, c.fovy);
    var yaw := if yawAxis
      then StickStep(c.pose.yaw, turn, upsideDown && c.settings.invertYawWhenUpsideDown, deltaTime)
      else c.pose.yaw;
    var pitch := if !yawAxis
      then StickStep(c.pose.pitch, turn, upsideDown && rolledOver && c.settings.invertPitchWhenUpsideDown, deltaTime)
      else c.pose.pitch;
    NormaliseRange(yaw);
    NormaliseRange(pitch);
    ClampPitchSpec(Normalise(pitch));
  }

  /** The unflipped angle change of a stick turn. */
  function StickDelta(turn: real, deltaTime: real): real
  {
    turn * StickTurnRate * deltaTime
  }

  /** A stick step adds the unflipped change, negated under the flip. */
  lemma StickStepSigned(angle: real, turn: real, flip: bool, deltaTime: real)
    ensures StickStep(angle, turn, flip, deltaTime) == angle + Signed(StickDelta(turn, deltaTime), flip)
  {
    if flip {
      assert turn * FlipFactor(flip) == -turn;
      NegateFactor(turn, StickTurnRate);
      NegateFactor(turn * StickTurnRate, deltaTime);
    } else {
      assert turn * FlipFactor(flip) == turn;
    }
  }

  /** What a right-stick event does to the angle it turns: the stick value
      times the zoom-scaled sensitivity, the turn rate and the frame time is
      added before normalising. For yaw it is negated exactly when upside
      down with the yaw invert switch set. For pitch it is negated exactly
      when upside down AND rolled over with the pitch invert switch set,
      where the mouse turn (`SteerPitchInverts`) asks only for rolled over and
      the switch. */
  lemma StickTurnInverts(c: Camera, yawAxis: bool, value: real, deltaTime: real)
    ensures var delta := StickDelta(StickTurnAmount(value, c.settings, c.fovy), deltaTime);
      yawAxis ==>
        StickTurn(c, yawAxis, value, deltaTime).pose.yaw ==
          Normalise(c.pose.yaw + Signed(delta, UpsideDown(c.modelView) && c.settings.invertYawWhenUpsideDown))
    ensures var delta := StickDelta(StickTurnAmount(value, c.settings, c.fovy), deltaTime);
      var turned := c.pose.pitch + Signed(delta, UpsideDown(c.modelView) && 90.0 < c.pose.roll < 270.0 &&
                                                 c.settings.invertPitchWhenUpsideDown);
      !yawAxis ==>
        StickTurn(c, yawAxis, value, deltaTime).pose.pitch ==
          (if c.settings.freeLook then Normalise(turned) else ClampPitch(Normalise(turned)))
  {
    var upsideDown := UpsideDown(c.modelView);
    var rolledOver := 90.0 < c.pose.roll < 270.0;
    var turn := StickTurnAmount(value, c.settings, c.fovy);
    StickStepSigned(c.pose.yaw, turn, upsideDown && c.settings.invertYawWhenUpsideDown, deltaTime);
    StickStepSigned(c.pose.pitch, turn, upsideDown && rolledOver && c.settings.invertPitchWhenUpsideDown, deltaTime);
  }

  /** Every axis event keeps the camera valid. An inactive event or a trigger
      axis changes nothing, and a left-stick event changes only the
      position. */
  lemma AxisPreservesValid(c: Camera, active: bool, axis: Axis, value: real, deltaTime: real)
    requires CameraValid(c)
    ensures CameraValid(AxisEvent(c, active, axis, value, deltaTime))
    ensures !active || axis == TriggerLeft || axis == TriggerRight ==>
      AxisEvent(c, active, axis, value, deltaTime) == c
    ensures active && (axis == LeftX || axis == LeftY) ==>
      var r := AxisEvent(c, active, axis, value, deltaTime);
      r == c.(pose := r.pose) && r.pose == c.pose.At(r.pose.Position())
  {
    if active && (axis == RightX || axis == RightY) {
      StickTurnSpec(c, axis == RightX, value, deltaTime);
    }
  }
}
