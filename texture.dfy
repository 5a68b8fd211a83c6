/** The texture viewer's key handler: the left and right arrow keys step the
    index of the displayed animated texture backwards and forwards, wrapping
    around at both ends of the texture table. */
module TextureViewer {

  /** Number of animated textures the viewer loads. */
  const AnimatedTextureCount: int := 3

  /** The keys the handler distinguishes. */
  datatype Key = LeftArrow | RightArrow | OtherKey

  /** One step of the index: back one for the left arrow, forward one
      otherwise; a step below 0 lands on the last entry, a step at or past
      the end lands on 0. */
  function WrapIndex(index: int, count: int, left: bool): int
  {
    var stepped := index + (if left then -1 else 1);
    var low := if stepped < 0 then count - 1 else stepped;
    if low >= count then 0 else low
  }

  /** For a non-empty table the result is always a valid entry, whatever the
      starting index. */
  lemma WrapIndexInRange(index: int, count: int, left: bool)
    requires count > 0
    ensures 0 <= WrapIndex(index, count, left) < count
  {
  }

  /** The two wrap-around cases: left from the first entry goes to the last,
      right from the last goes to the first. */
  lemma WrapIndexEnds(count: int)
    requires count > 0
    ensures WrapIndex(0, count, true) == count - 1
    ensures WrapIndex(count - 1, count, false) == 0
  {
  }

  /** From a valid entry a step is exactly modular arithmetic on the table
      size. */
  lemma WrapIndexIsModular(index: int, count: int, left: bool)
    requires 0 <= index < count
    ensures WrapIndex(index, count, left) == (index + (if left then -1 else 1)) % count
  {
    var stepped := index + (if left then -1 else 1);
    if stepped < 0 {
      assert stepped == -1;
      assert (count - 1) + (-1) * count == -1;
    } else if stepped >= count {
      assert stepped == count;
    } else {
      assert 0 <= stepped < count;
    }
  }

  /** From a valid entry, left then right and right then left both return to
      the starting entry. */
  lemma WrapIndexInverse(index: int, count: int)
    requires 0 <= index < count
    ensures WrapIndex(WrapIndex(index, count, true), count, false) == index
    ensures WrapIndex(WrapIndex(index, count, false), count, true) == index
  {
  }

  class Viewer {
    var animatedTextureIndex: int

    /** The displayed texture is always an entry of the table. */
    ghost predicate Valid()
      reads this
    {
      0 <= animatedTextureIndex < AnimatedTextureCount
    }

    constructor ()
      ensures Valid() && animatedTextureIndex == 0
    {
      animatedTextureIndex := 0;
    }

    /** The key-down handler. `active` stands for "a window exists and this
        viewer is its active renderer"; only then, and only for an arrow key,
        does the index move. */
    method OnKeyDown(key: Key, active: bool)
      requires Valid()
      modifies this`animatedTextureIndex
      ensures Valid()
      ensures animatedTextureIndex ==
        if active && key != OtherKey
        then WrapIndex(old(animatedTextureIndex), AnimatedTextureCount, key == LeftArrow)
        else old(animatedTextureIndex)
    {
      if active {
        if key == LeftArrow || key == RightArrow {
          WrapIndexInRange(animatedTextureIndex, AnimatedTextureCount, key == LeftArrow);
          animatedTextureIndex := WrapIndex(animatedTextureIndex, AnimatedTextureCount, key == LeftArrow);
        }
      }
    }
  }
}
