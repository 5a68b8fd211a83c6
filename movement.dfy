/** Camera movement driven by the last rendered view matrix. The matrix is a
    16-element sequence in the layout the matrix stack hands out; movement
    reads single cells of it as basis vectors instead of recomputing them
    from yaw and pitch. */
module Movement {
  import opened ViewMatrix

  /** `v * (flip ? -1.0f : 1.0f)`: the sign flips applied while the camera
      is upside down. */
  function Signed(v: real, flip: bool): real
  {
    if flip then -v else v
  }

  datatype Position = Position(x: real, y: real, z: real)

  /** The six movement keys: W, S, A, D, space and left shift. */
  datatype Direction = Forward | Backward | Left | Right | Up | Down

  function Opposite(d: Direction): Direction
  {
    match d
    case Forward => Backward
    case Backward => Forward
    case Left => Right
    case Right => Left
    case Up => Down
    case Down => Up
  }

  /** The movement switches that change how a move is applied. */
  datatype MoveMode = MoveMode(freeMove: bool, invertForward: bool, invertVertical: bool)

  /** The displacement that one unit of `amount` (speed times time) adds in
      direction `d`. With free-move on it is the view matrix's forward (cells
      2, 6, 10), right (0, 4, 8) or up (1, 5, 9) basis vector. With free-move
      off, forward and back run in the ground plane along cells 8 and 0,
      strafing uses cells 0 and 8 with no vertical part, vertical moves are
      straight up or down, and forward/back and vertical moves reverse while
      upside down when their invert switch is set. */
  function Heading(d: Direction, m: Matrix, mode: MoveMode, upsideDown: bool): Position
  {
    var flipForward := upsideDown && mode.invertForward;
    var flipVertical := upsideDown && mode.invertVertical;
    match d
    case Forward =>
      if mode.freeMove then Position(-m[2], -m[6], -m[10])
      else Position(Signed(m[8], flipForward), 0.0, -Signed(m[0], flipForward))
    case Backward =>
      if mode.freeMove then Position(m[2], m[6], m[10])
      else Position(-Signed(m[8], flipForward), 0.0, Signed(m[0], flipForward))
    case Left =>
      if mode.freeMove then Position(-m[0], -m[4], -m[8])
      else Position(-m[0], 0.0, -m[8])
    case Right =>
      if mode.freeMove then Position(m[0], m[4], m[8])
      else Position(m[0], 0.0, m[8])
    case Up =>
      if mode.freeMove then Position(m[1], m[5], m[9])
      else Position(0.0, Signed(1.0, flipVertical), 0.0)
    case Down =>
      if mode.freeMove then Position(-m[1], -m[5], -m[9])
      else Position(0.0, -Signed(1.0, flipVertical), 0.0)
  }

  /** One move by `amount` in direction `d`: `x += heading.x * amount`, and
      likewise for y and z. */
  function Move(p: Position, d: Direction, m: Matrix, amount: real,
                mode: MoveMode, upsideDown: bool): Position
  {
    Translate(p, Heading(d, m, mode, upsideDown), amount)
  }

  function Translate(p: Position, h: Position, amount: real): Position
  {
    Position(p.x + h.x * amount, p.y + h.y * amount, p.z + h.z * amount)
  }

  function Negated(v: Position): Position
  {
    Position(-v.x, -v.y, -v.z)
  }

  /** Opposite keys move along opposite vectors. */
  lemma HeadingOpposite(d: Direction, m: Matrix, mode: MoveMode, upsideDown: bool)
    ensures Heading(Opposite(d), m, mode, upsideDown) == Negated(Heading(d, m, mode, upsideDown))
  {
    match d
    case Forward => ForwardBackwardOpposite(m, mode, upsideDown);
    case Backward => ForwardBackwardOpposite(m, mode, upsideDown);
    case Left => LeftRightOpposite(m, mode, upsideDown);
    case Right => LeftRightOpposite(m, mode, upsideDown);
    case Up => UpDownOpposite(m, mode, upsideDown);
    case Down => UpDownOpposite(m, mode, upsideDown);
  }

  lemma ForwardBackwardOpposite(m: Matrix, mode: MoveMode, upsideDown: bool)
    ensures Heading(Backward, m, mode, upsideDown) == Negated(Heading(Forward, m, mode, upsideDown))
  {
  }

  lemma LeftRightOpposite(m: Matrix, mode: MoveMode, upsideDown: bool)
    ensures Heading(Right, m, mode, upsideDown) == Negated(Heading(Left, m, mode, upsideDown))
  {
  }

  lemma UpDownOpposite(m: Matrix, mode: MoveMode, upsideDown: bool)
    ensures Heading(Down, m, mode, upsideDown) == Negated(Heading(Up, m, mode, upsideDown))
  {
  }

  lemma NegateFactor(a: real, b: real)
    ensures -a * b == -(a * b)
    ensures a * -b == -(a * b)
  {
  }

  /** Translating along a vector and then along its negation, or by an
      amount and then by its negation, returns to the start. */
  lemma TranslateBack(p: Position, h: Position, amount: real)
    ensures Translate(Translate(p, h, amount), Negated(h), amount) == p
    ensures Translate(Translate(p, h, amount), h, -amount) == p
  {
    var q := Translate(p, h, amount);
    StepBack(p.x, h.x, amount);
    StepBack(p.y, h.y, amount);
    StepBack(p.z, h.z, amount);
    var back := Translate(q, Negated(h), amount);
    assert back == Position(q.x + -h.x * amount, q.y + -h.y * amount, q.z + -h.z * amount);
    assert back.x == p.x && back.y == p.y && back.z == p.z;
    var undone := Translate(q, h, -amount);
    assert undone == Position(q.x + h.x * -amount, q.y + h.y * -amount, q.z + h.z * -amount);
    assert undone.x == p.x && undone.y == p.y && undone.z == p.z;
  }

  /** One coordinate of `TranslateBack`. */
  lemma StepBack(v: real, cell: real, amount: real)
    ensures (v + cell * amount) + (-cell) * amount == v
    ensures (v + cell * amount) + cell * (-amount) == v
  {
    NegateFactor(cell, amount);
  }

  /** Inverse-move law: for the same matrix, switches, upside-down state and
      amount, a move followed by the opposite move returns to the start. */
  lemma MoveInverse(p: Position, d: Direction, m: Matrix, amount: real,
                    mode: MoveMode, upsideDown: bool)
    ensures Move(Move(p, d, m, amount, mode, upsideDown), Opposite(d), m, amount, mode, upsideDown) == p
  {
    var h := Heading(d, m, mode, upsideDown);
    HeadingOpposite(d, m, mode, upsideDown);
    TranslateBack(p, h, amount);
  }

  /** Moving by an amount and then by its negation in the same direction also
      returns to the start. */
  lemma MoveNegatedAmount(p: Position, d: Direction, m: Matrix, amount: real,
                          mode: MoveMode, upsideDown: bool)
    ensures Move(Move(p, d, m, amount, mode, upsideDown), d, m, -amount, mode, upsideDown) == p
  {
    TranslateBack(p, Heading(d, m, mode, upsideDown), amount);
  }

  /** With free-move off, forward and backward moves change only x and z. */
  lemma GroundForwardKeepsHeight(p: Position, d: Direction, m: Matrix, amount: real,
                                 mode: MoveMode, upsideDown: bool)
    requires !mode.freeMove && (d == Forward || d == Backward)
    ensures Move(p, d, m, amount, mode, upsideDown).y == p.y
  {
  }

  /** With free-move off, vertical moves change only y, by exactly the
      amount: up adds it and down subtracts it, both reversed when the camera
      is upside down and the vertical invert switch is set. */
  lemma GroundVerticalKeepsPlane(p: Position, d: Direction, m: Matrix, amount: real,
                                 mode: MoveMode, upsideDown: bool)
    requires !mode.freeMove && (d == Up || d == Down)
    ensures var q := Move(p, d, m, amount, mode, upsideDown);
      q.x == p.x && q.z == p.z
    ensures var flip := upsideDown && mode.invertVertical;
      Move(p, d, m, amount, mode, upsideDown).y ==
        if d == Up then p.y + Signed(amount, flip) else p.y - Signed(amount, flip)
  {
    var flip := upsideDown && mode.invertVertical;
    assert 0.0 * amount == 0.0;
    assert Signed(1.0, flip) * amount == Signed(amount, flip);
    NegateFactor(Signed(1.0, flip), amount);
  }

  /** With free-move off, strafing changes only x and z and does not depend on
      the upside-down state or either invert switch. */
  lemma GroundStrafeIgnoresInversion(p: Position, d: Direction, m: Matrix, amount: real,
                                     mode: MoveMode, upsideDown: bool,
                                     otherMode: MoveMode, otherUpsideDown: bool)
    requires !mode.freeMove && !otherMode.freeMove && (d == Left || d == Right)
    ensures Move(p, d, m, amount, mode, upsideDown).y == p.y
    ensures Move(p, d, m, amount, mode, upsideDown) == Move(p, d, m, amount, otherMode, otherUpsideDown)
  {
    assert Heading(d, m, mode, upsideDown) == Heading(d, m, otherMode, otherUpsideDown);
  }

  /** Whether the invert switch that matches direction `d` is set. */
  function InvertSwitch(d: Direction, mode: MoveMode): bool
  {
    if d == Forward || d == Backward then mode.invertForward
    else if d == Up || d == Down then mode.invertVertical
    else false
  }

  /** With free-move off, a move is reversed exactly when the camera is upside
      down and the matching invert switch is set: then it equals the
      opposite move made right side up. Otherwise the upside-down state does
      not matter. */
  lemma GroundInversion(p: Position, d: Direction, m: Matrix, amount: real, mode: MoveMode)
    requires !mode.freeMove
    ensures InvertSwitch(d, mode) ==>
      Move(p, d, m, amount, mode, true) == Move(p, Opposite(d), m, amount, mode, false)
    ensures !InvertSwitch(d, mode) ==>
      Move(p, d, m, amount, mode, true) == Move(p, d, m, amount, mode, false)
  {
    GroundHeadingInversion(d, m, mode);
  }

  lemma GroundHeadingInversion(d: Direction, m: Matrix, mode: MoveMode)
    requires !mode.freeMove
    ensures InvertSwitch(d, mode) ==> Heading(d, m, mode, true) == Heading(Opposite(d), m, mode, false)
    ensures !InvertSwitch(d, mode) ==> Heading(d, m, mode, true) == Heading(d, m, mode, false)
  {
    var h := Heading(d, m, mode, true);
    var f := mode.invertForward;
    var v := mode.invertVertical;
    match d
    case Forward =>
      assert h == Position(Signed(m[8], f), 0.0, -Signed(m[0], f));
    case Backward =>
      assert h == Position(-Signed(m[8], f), 0.0, Signed(m[0], f));
    case Left =>
      assert h == Position(-m[0], 0.0, -m[8]);
    case Right =>
      assert h == Position(m[0], 0.0, m[8]);
    case Up =>
      assert h == Position(0.0, Signed(1.0, v), 0.0);
    case Down =>
      assert h == Position(0.0, -Signed(1.0, v), 0.0);
  }

  /** The factor `(flip ? -1.0f : 1.0f)` that the move methods multiply by. */
  function FlipFactor(flip: bool): real
  {
    if flip then -1.0 else 1.0
  }

  /** A move exactly as the move methods write it: coordinate by coordinate,
      subtracting or adding a matrix cell times the amount, and in the ground
      modes multiplying the amount by the flip factor first. */
  function SourceMove(p: Position, d: Direction, m: Matrix, amount: real,
                      mode: MoveMode, upsideDown: bool): Position
  {
    var forwardAmount := amount * FlipFactor(upsideDown && mode.invertForward);
    var verticalAmount := amount * FlipFactor(upsideDown && mode.invertVertical);
    match d
    case Forward =>
      if mode.freeMove then Position(p.x - m[2] * amount, p.y - m[6] * amount, p.z - m[10] * amount)
      else Position(p.x + m[8] * forwardAmount, p.y, p.z - m[0] * forwardAmount)
    case Backward =>
      if mode.freeMove then Position(p.x + m[2] * amount, p.y + m[6] * amount, p.z + m[10] * amount)
      else Position(p.x - m[8] * forwardAmount, p.y, p.z + m[0] * forwardAmount)
    case Left =>
      if mode.freeMove then Position(p.x - m[0] * amount, p.y - m[4] * amount, p.z - m[8] * amount)
      else Position(p.x - m[0] * amount, p.y, p.z - m[8] * amount)
    case Right =>
      if mode.freeMove then Position(p.x + m[0] * amount, p.y + m[4] * amount, p.z + m[8] * amount)
      else Position(p.x + m[0] * amount, p.y, p.z + m[8] * amount)
    case Up =>
      if mode.freeMove then Position(p.x + m[1] * amount, p.y + m[5] * amount, p.z + m[9] * amount)
      else Position(p.x, p.y + verticalAmount, p.z)
    case Down =>
      if mode.freeMove then Position(p.x - m[1] * amount, p.y - m[5] * amount, p.z - m[9] * amount)
      else Position(p.x, p.y - verticalAmount, p.z)
  }

  /** Multiplying by the flip factor negates exactly when the flag is set. */
  lemma FlipFactorSigned(v: real, flip: bool)
    ensures v * FlipFactor(flip) == Signed(v, flip)
  {
  }

  lemma FlipFactorProduct(cell: real, amount: real, flip: bool)
    ensures cell * (amount * FlipFactor(flip)) == Signed(cell, flip) * amount
  {
    if flip {
      NegateFactor(cell, amount);
    }
  }

  lemma FlipFactorAmount(amount: real, flip: bool)
    ensures amount * FlipFactor(flip) == Signed(1.0, flip) * amount
  {
  }

  /** The heading form of a move agrees with the coordinate updates the move
      methods perform, in every direction, mode and upside-down state. */
  lemma MoveMatchesSource(p: Position, d: Direction, m: Matrix, amount: real,
                          mode: MoveMode, upsideDown: bool)
    ensures Move(p, d, m, amount, mode, upsideDown) == SourceMove(p, d, m, amount, mode, upsideDown)
  {
    match d
    case Forward =>
      if mode.freeMove { ForwardFreeMatchesSource(p, m, amount, mode, upsideDown); }
      else { ForwardGroundMatchesSource(p, m, amount, mode, upsideDown); }
    case Backward =>
      if mode.freeMove { BackwardFreeMatchesSource(p, m, amount, mode, upsideDown); }
      else { BackwardGroundMatchesSource(p, m, amount, mode, upsideDown); }
    case Left =>
      if mode.freeMove { LeftFreeMatchesSource(p, m, amount, mode, upsideDown); }
      else { LeftGroundMatchesSource(p, m, amount, mode, upsideDown); }
    case Right =>
      if mode.freeMove { RightFreeMatchesSource(p, m, amount, mode, upsideDown); }
      else { RightGroundMatchesSource(p, m, amount, mode, upsideDown); }
    case Up =>
      if mode.freeMove { UpFreeMatchesSource(p, m, amount, mode, upsideDown); }
      else { UpGroundMatchesSource(p, m, amount, mode, upsideDown); }
    case Down =>
      if mode.freeMove { DownFreeMatchesSource(p, m, amount, mode, upsideDown); }
      else { DownGroundMatchesSource(p, m, amount, mode, upsideDown); }
  }

  /** The inverse-move law in coordinate form: the updates of a move and of
      the opposite move cancel out. */
  lemma SourceMoveInverse(p: Position, d: Direction, m: Matrix, amount: real,
                          mode: MoveMode, upsideDown: bool)
    ensures SourceMove(SourceMove(p, d, m, amount, mode, upsideDown), Opposite(d), m, amount, mode, upsideDown) == p
  {
    var q := SourceMove(p, d, m, amount, mode, upsideDown);
    MoveMatchesSource(p, d, m, amount, mode, upsideDown);
    MoveMatchesSource(q, Opposite(d), m, amount, mode, upsideDown);
    MoveInverse(p, d, m, amount, mode, upsideDown);
  }

  lemma ForwardFreeMatchesSource(p: Position, m: Matrix, amount: real, mode: MoveMode, upsideDown: bool)
    requires mode.freeMove
    ensures Move(p, Forward, m, amount, mode, upsideDown) == SourceMove(p, Forward, m, amount, mode, upsideDown)
  {
    NegateFactor(m[2], amount);
    NegateFactor(m[6], amount);
    NegateFactor(m[10], amount);
  }

  lemma ForwardGroundMatchesSource(p: Position, m: Matrix, amount: real, mode: MoveMode, upsideDown: bool)
    requires !mode.freeMove
    ensures Move(p, Forward, m, amount, mode, upsideDown) == SourceMove(p, Forward, m, amount, mode, upsideDown)
  {
    var flip := upsideDown && mode.invertForward;
    var q, r := Move(p, Forward, m, amount, mode, upsideDown), SourceMove(p, Forward, m, amount, mode, upsideDown);
    FlipFactorProduct(m[8], amount, flip);
    assert q.x == r.x;
    assert 0.0 * amount == 0.0;
    assert q.y == r.y;
    FlipFactorProduct(m[0], amount, flip);
    NegateFactor(Signed(m[0], flip), amount);
    assert q.z == r.z;
  }

  lemma BackwardFreeMatchesSource(p: Position, m: Matrix, amount: real, mode: MoveMode, upsideDown: bool)
    requires mode.freeMove
    ensures Move(p, Backward, m, amount, mode, upsideDown) == SourceMove(p, Backward, m, amount, mode, upsideDown)
  {
  }

  lemma BackwardGroundMatchesSource(p: Position, m: Matrix, amount: real, mode: MoveMode, upsideDown: bool)
    requires !mode.freeMove
    ensures Move(p, Backward, m, amount, mode, upsideDown) == SourceMove(p, Backward, m, amount, mode, upsideDown)
  {
    var flip := upsideDown && mode.invertForward;
    var q, r := Move(p, Backward, m, amount, mode, upsideDown), SourceMove(p, Backward, m, amount, mode, upsideDown);
    FlipFactorProduct(m[8], amount, flip);
    NegateFactor(Signed(m[8], flip), amount);
    assert q.x == r.x;
    assert 0.0 * amount == 0.0;
    assert q.y == r.y;
    FlipFactorProduct(m[0], amount, flip);
    assert q.z == r.z;
  }

  lemma LeftFreeMatchesSource(p: Position, m: Matrix, amount: real, mode: MoveMode, upsideDown: bool)
    requires mode.freeMove
    ensures Move(p, Left, m, amount, mode, upsideDown) == SourceMove(p, Left, m, amount, mode, upsideDown)
  {
    NegateFactor(m[0], amount);
    NegateFactor(m[4], amount);
    NegateFactor(m[8], amount);
  }

  lemma LeftGroundMatchesSource(p: Position, m: Matrix, amount: real, mode: MoveMode, upsideDown: bool)
    requires !mode.freeMove
    ensures Move(p, Left, m, amount, mode, upsideDown) == SourceMove(p, Left, m, amount, mode, upsideDown)
  {
    assert 0.0 * amount == 0.0;
    NegateFactor(m[0], amount);
    NegateFactor(m[8], amount);
  }

  lemma RightFreeMatchesSource(p: Position, m: Matrix, amount: real, mode: MoveMode, upsideDown: bool)
    requires mode.freeMove
    ensures Move(p, Right, m, amount, mode, upsideDown) == SourceMove(p, Right, m, amount, mode, upsideDown)
  {
  }

  lemma RightGroundMatchesSource(p: Position, m: Matrix, amount: real, mode: MoveMode, upsideDown: bool)
    requires !mode.freeMove
    ensures Move(p, Right, m, amount, mode, upsideDown) == SourceMove(p, Right, m, amount, mode, upsideDown)
  {
    assert 0.0 * amount == 0.0;
  }

  lemma UpFreeMatchesSource(p: Position, m: Matrix, amount: real, mode: MoveMode, upsideDown: bool)
    requires mode.freeMove
    ensures Move(p, Up, m, amount, mode, upsideDown) == SourceMove(p, Up, m, amount, mode, upsideDown)
  {
  }

  lemma UpGroundMatchesSource(p: Position, m: Matrix, amount: real, mode: MoveMode, upsideDown: bool)
    requires !mode.freeMove
    ensures Move(p, Up, m, amount, mode, upsideDown) == SourceMove(p, Up, m, amount, mode, upsideDown)
  {
    var flip := upsideDown && mode.invertVertical;
    assert 0.0 * amount == 0.0;
    FlipFactorAmount(amount, flip);
  }

  lemma DownFreeMatchesSource(p: Position, m: Matrix, amount: real, mode: MoveMode, upsideDown: bool)
    requires mode.freeMove
    ensures Move(p, Down, m, amount, mode, upsideDown) == SourceMove(p, Down, m, amount, mode, upsideDown)
  {
    NegateFactor(m[1], amount);
    NegateFactor(m[5], amount);
    NegateFactor(m[9], amount);
  }

  lemma DownGroundMatchesSource(p: Position, m: Matrix, amount: real, mode: MoveMode, upsideDown: bool)
    requires !mode.freeMove
    ensures Move(p, Down, m, amount, mode, upsideDown) == SourceMove(p, Down, m, amount, mode, upsideDown)
  {
    var flip := upsideDown && mode.invertVertical;
    assert 0.0 * amount == 0.0;
    FlipFactorAmount(amount, flip);
    NegateFactor(Signed(1.0, flip), amount);
  }
}
