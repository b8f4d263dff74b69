/**
 * The shooter character, as far as items touch it: a holder of two counters, the number of
 * items whose area sphere it overlaps, and the number of items interping to each of its
 * interp locations (slot index to count; a slot without an entry counts zero).
 */
module Characters {

  class ShooterCharacter {
    var overlappedItemCount: int
    var interpSlotCounts: map<int, int>

    constructor()
      ensures overlappedItemCount == 0 && interpSlotCounts == map[]
    {
      overlappedItemCount := 0;
      interpSlotCounts := map[];
    }

    /** The number of items interping to slot i. */
    function SlotCount(i: int): int
      reads this
    {
      if i in interpSlotCounts then interpSlotCounts[i] else 0
    }

    /** Adds the given amount to the number of overlapped items. */
    method AddOverlappedItemCount(amount: int)
      modifies this`overlappedItemCount
      ensures overlappedItemCount == old(overlappedItemCount) + amount
    {
      overlappedItemCount := overlappedItemCount + amount;
    }

    /** Adds the given amount to the item count of interp slot i; other slots keep theirs. */
    method IncrementInterpLocationItemCount(i: int, amount: int)
      modifies this`interpSlotCounts
      ensures SlotCount(i) == old(SlotCount(i)) + amount
      ensures forall j :: j != i ==> SlotCount(j) == old(SlotCount(j))
    {
      interpSlotCounts := interpSlotCounts[i := SlotCount(i) + amount];
    }
  }
}
