/** Which blocks the periodic processors look at. */
module Sampling {

  const EPOCH_SIZE: nat := 17280
  const BLOCKS_PER_HOUR: nat := 720

  predicate ShouldSample(block: nat, checkPoint: nat)
    requires checkPoint > 0
  {
    block % checkPoint == 0
  }

  /** The reserve processor's own test. */
  predicate ReserveCollects(block: nat) {
    ShouldSample(block, BLOCKS_PER_HOUR) || ShouldSample(block, EPOCH_SIZE)
  }

  /** An epoch is a whole number of hours, so the second half of the reserve's test adds nothing. */
  lemma ReserveCollectsHourly(block: nat)
    ensures ReserveCollects(block) <==> block % 720 == 0
  {
    assert EPOCH_SIZE == 24 * BLOCKS_PER_HOUR;
    if ShouldSample(block, EPOCH_SIZE) {
      assert block == 24 * BLOCKS_PER_HOUR * (block / EPOCH_SIZE);
    }
  }
}
