/** The view matrix that the render step leaves behind, and the upside-down
    test that the camera reads from it. */
module ViewMatrix {

  /** The 16 cells of a 4x4 view matrix. */
  type Matrix = m: seq<real> | |m| == 16 witness seq(16, _ => 0.0)

  /** MathUtil.limitDecimalNoRounding(v, 4) read back as a number: the value
      cut after its fourth decimal, without rounding. */
  function LimitDecimalNoRounding4(v: real): real
  {
    var scaled := v * 10000.0;
    var kept := if scaled >= 0.0 then scaled.Floor else -((-scaled).Floor);
    kept as real / 10000.0
  }

  /** The camera counts as upside down when cell 5 of the view matrix (the
      vertical component of the camera's up vector), cut to four decimals,
      is negative. */
  predicate UpsideDown(m: Matrix)
  {
    LimitDecimalNoRounding4(m[5]) < -0.0
  }

  /** Because the cell is cut rather than rounded, the camera is upside down
      exactly when cell 5 is at most -0.0001; a cell of 0 or any value
      strictly between -0.0001 and 0 does not count. */
  lemma UpsideDownIff(m: Matrix)
    ensures UpsideDown(m) <==> m[5] <= -0.0001
  {
    var scaled := m[5] * 10000.0;
    if m[5] <= -0.0001 {
      assert -scaled >= 1.0;
      assert (-scaled).Floor >= 1;
    } else if scaled < 0.0 {
      assert -scaled < 1.0;
      assert (-scaled).Floor == 0;
    }
  }
}
