/** Hazard categories as a bit set, one bit per category. */
module HazmatFlags {

  type Flags = bv32

  /** No hazard: the flags of an ordinary box or of an uncertified room. */
  const NONE: Flags := 0
  /** Single-bit categories; any two distinct single bits behave the same. */
  const CHEMICAL: Flags := 1
  const NUCLEAR: Flags := 2

  /** Every category set in `box` is also set in `room`. */
  predicate Covers(room: Flags, box: Flags) {
    box & room == box
  }

  /** An ordinary box is covered by every room, hazmat rooms included. */
  lemma NoneIsCoveredByEveryRoom(room: Flags)
    ensures Covers(room, NONE)
  {
  }

  /** An uncertified room covers ordinary boxes only. */
  lemma UncertifiedRoomCoversOnlyNone(box: Flags)
    ensures Covers(NONE, box) <==> box == NONE
  {
  }

  /** A chemical box is not covered by a room certified for nuclear only. */
  lemma NuclearRoomDoesNotCoverChemical()
    ensures !Covers(NUCLEAR, CHEMICAL)
    ensures !Covers(NUCLEAR, CHEMICAL | NUCLEAR)
  {
  }

  /** A room certified for both categories covers each of them and both together. */
  lemma CombinedRoomCoversBoth()
    ensures Covers(CHEMICAL | NUCLEAR, CHEMICAL)
    ensures Covers(CHEMICAL | NUCLEAR, NUCLEAR)
    ensures Covers(CHEMICAL | NUCLEAR, NUCLEAR | CHEMICAL)
  {
  }
}
