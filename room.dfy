/** The room: fixed attributes and a growing, ordered list of boxes. */
module Rooms {
  import opened HazmatFlags
  import opened Boxes

  /** The fixed attributes of a room, as a value. */
  datatype RoomInfo = RoomInfo(volume: int, stairs: bool, hazmatFlags: Flags)

  class Room {
    /** Capacity, stairs and certification are final: set once, never changed. */
    const volume: int
    const stairs: bool
    const hazmatFlags: Flags
    /** The boxes added so far, in the order they were added. */
    var boxes: seq<Box>

    /** One-argument constructor: no stairs, no hazard certification. */
    constructor WithVolume(volume: int)
      ensures this.volume == volume && !stairs && hazmatFlags == NONE
      ensures boxes == []
    {
      this.volume := volume;
      stairs := false;
      hazmatFlags := NONE;
      boxes := [];
    }

    /** Two-argument constructor: no hazard certification. */
    constructor WithStairs(volume: int, stairs: bool)
      ensures this.volume == volume && this.stairs == stairs && hazmatFlags == NONE
      ensures boxes == []
    {
      this.volume := volume;
      this.stairs := stairs;
      hazmatFlags := NONE;
      boxes := [];
    }

    /** Three-argument constructor. */
    constructor (volume: int, stairs: bool, hazmatFlags: Flags)
      ensures this.volume == volume && this.stairs == stairs && this.hazmatFlags == hazmatFlags
      ensures boxes == []
    {
      this.volume := volume;
      this.stairs := stairs;
      this.hazmatFlags := hazmatFlags;
      boxes := [];
    }

    /** The contents in insertion order; a value, so callers cannot change the room through it. */
    function GetBoxes(): seq<Box>
      reads this
    {
      boxes
    }

    /** Appends a box. No capacity, hazard or stairs check: that is the caller's job. */
    method AddBox(box: Box)
      modifies this
      ensures boxes == old(boxes) + [box]
      ensures forall i :: 0 <= i < |old(boxes)| ==> boxes[i] == old(boxes)[i]
    {
      boxes := boxes + [box];
    }

    /** The fixed attributes of this room. */
    function Info(): RoomInfo {
      RoomInfo(volume, stairs, hazmatFlags)
    }
  }
}
