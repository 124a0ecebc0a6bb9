/** The box: an immutable value with a name, a volume and hazard flags. */
module Boxes {
  import opened HazmatFlags

  /** The three-argument constructor; the fields are the getters. */
  datatype Box = Box(name: string, volume: int, hazmatFlags: Flags)

  /** The two-argument constructor: an ordinary, non-hazardous box. */
  function NewBox(name: string, volume: int): (b: Box)
    ensures b.name == name && b.volume == volume
    ensures b.hazmatFlags == NONE
  {
    Box(name, volume, NONE)
  }

  /** A box prints as its name. */
  function ToString(b: Box): string {
    b.name
  }

  /** The getters give back exactly what the constructor was given. */
  lemma GettersReturnConstructorArguments(name: string, volume: int, flags: Flags)
    ensures Box(name, volume, flags).name == name
    ensures Box(name, volume, flags).volume == volume
    ensures Box(name, volume, flags).hazmatFlags == flags
    ensures ToString(Box(name, volume, flags)) == name
  {
  }
}
