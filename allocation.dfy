/**
 * The allocator's decision rules as pure functions over values: which rooms
 * are legal for a box, how much volume later boxes reserve in a room, where a
 * single box goes, and the whole left-to-right pass over a box list.
 */
module Allocation {
  import opened HazmatFlags
  import opened Boxes
  import opened Rooms

  /** An optional room index (or candidate position): `None` means no room. */
  datatype Choice = None | Some(value: nat)

  /** Boxes larger than this never enter a room with stairs. */
  const StairsLimit := 50

  /** Capacity-independent compatibility: hazard containment and the stairs rule. */
  predicate Legal(b: Box, room: RoomInfo) {
    Covers(room.hazmatFlags, b.hazmatFlags) && !(b.volume > StairsLimit && room.stairs)
  }

  /** The indices below `n` of the rooms a box is legal for, in room order. */
  function FeasibleBelow(infos: seq<RoomInfo>, b: Box, n: nat): seq<nat>
    requires n <= |infos|
  {
    if n == 0 then []
    else FeasibleBelow(infos, b, n - 1) + (if Legal(b, infos[n - 1]) then [n - 1] else [])
  }

  /** FeasibleBelow lists room indices below `n` only. */
  lemma {:induction false} FeasibleBelowBound(infos: seq<RoomInfo>, b: Box, n: nat)
    requires n <= |infos|
    ensures forall t :: 0 <= t < |FeasibleBelow(infos, b, n)| ==> FeasibleBelow(infos, b, n)[t] < n
  {
    if n > 0 {
      FeasibleBelowBound(infos, b, n - 1);
    }
  }

  /** FeasibleBelow lists exactly the legal rooms below `n`, in increasing order. */
  lemma {:induction false} FeasibleBelowExact(infos: seq<RoomInfo>, b: Box, n: nat)
    requires n <= |infos|
    ensures forall t :: 0 <= t < |FeasibleBelow(infos, b, n)| ==>
              FeasibleBelow(infos, b, n)[t] < n && Legal(b, infos[FeasibleBelow(infos, b, n)[t]])
    ensures forall i :: 0 <= i < n && Legal(b, infos[i]) ==> i in FeasibleBelow(infos, b, n)
    ensures forall s, t :: 0 <= s < t < |FeasibleBelow(infos, b, n)| ==>
              FeasibleBelow(infos, b, n)[s] < FeasibleBelow(infos, b, n)[t]
  {
    if n > 0 {
      FeasibleBelowExact(infos, b, n - 1);
    }
  }

  /** The feasible-room set of a box: every legal room, in room order. */
  function Feasible(infos: seq<RoomInfo>, b: Box): seq<nat> {
    FeasibleBelow(infos, b, |infos|)
  }

  /** The feasible-room set lists every legal room and nothing else, each once, in room order. */
  lemma FeasibleIsTheLegalRooms(infos: seq<RoomInfo>, b: Box)
    ensures forall t :: 0 <= t < |Feasible(infos, b)| ==>
              Feasible(infos, b)[t] < |infos| && Legal(b, infos[Feasible(infos, b)[t]])
    ensures forall i :: 0 <= i < |infos| && Legal(b, infos[i]) ==> i in Feasible(infos, b)
    ensures forall s, t :: 0 <= s < t < |Feasible(infos, b)| ==> Feasible(infos, b)[s] < Feasible(infos, b)[t]
  {
    FeasibleBelowExact(infos, b, |infos|);
  }

  /** The single legal room of a constrained box; None for a box with no or several legal rooms. */
  function Forced(infos: seq<RoomInfo>, b: Box): (r: Choice)
    ensures r.Some? ==> r.value < |infos|
  {
    var f := Feasible(infos, b);
    FeasibleBelowBound(infos, b, |infos|);
    if |f| == 1 then Some(f[0]) else None
  }

  /** Total volume of the boxes in `later` whose single legal room is `i`. */
  function ReservedFor(infos: seq<RoomInfo>, later: seq<Box>, i: nat): int
    decreases |later|
  {
    if later == [] then 0
    else (if Forced(infos, later[0]) == Some(i) then later[0].volume else 0)
         + ReservedFor(infos, later[1..], i)
  }

  /**
   * The reservation of every room at once, built from the back of `later`:
   * each constrained box adds its volume to its own room's entry.
   */
  function Reservations(infos: seq<RoomInfo>, later: seq<Box>): (r: seq<int>)
    ensures |r| == |infos|
    decreases |later|
  {
    if later == [] then seq(|infos|, i => 0)
    else
      var rest := Reservations(infos, later[1..]);
      match Forced(infos, later[0])
      case None => rest
      case Some(i) => rest[i := rest[i] + later[0].volume]
  }

  /** Total volume of a list of boxes. */
  function Sum(bs: seq<Box>): int
    decreases |bs|
  {
    if bs == [] then 0 else Sum(bs[..|bs| - 1]) + bs[|bs| - 1].volume
  }

  /** The used volume of every room. */
  function Used(contents: seq<seq<Box>>): seq<int> {
    seq(|contents|, i requires 0 <= i < |contents| => Sum(contents[i]))
  }

  /** Raw capacity admits a box of volume `v` into room `i`. */
  predicate FitsRaw(infos: seq<RoomInfo>, used: seq<int>, i: nat, v: int)
    requires i < |infos| == |used|
  {
    used[i] + v <= infos[i].volume
  }

  /** Capacity minus the room's reservation admits a box of volume `v` into room `i`. */
  predicate FitsReserved(infos: seq<RoomInfo>, used: seq<int>, reserved: seq<int>, i: nat, v: int)
    requires i < |infos| == |used| == |reserved|
  {
    used[i] + v <= infos[i].volume - reserved[i]
  }

  /** The first position at or after `t` in `cands` whose room passes the reserved bound. */
  function FirstFittingFrom(infos: seq<RoomInfo>, used: seq<int>, reserved: seq<int>, b: Box,
                            cands: seq<nat>, t: nat): (p: Choice)
    requires |used| == |infos| && |reserved| == |infos|
    requires forall u :: 0 <= u < |cands| ==> cands[u] < |infos|
    requires t <= |cands|
    ensures p.Some? ==> t <= p.value < |cands| && FitsReserved(infos, used, reserved, cands[p.value], b.volume)
    ensures p.Some? ==> forall u :: t <= u < p.value ==> !FitsReserved(infos, used, reserved, cands[u], b.volume)
    ensures p.None? ==> forall u :: t <= u < |cands| ==> !FitsReserved(infos, used, reserved, cands[u], b.volume)
    decreases |cands| - t
  {
    if t == |cands| then None
    else if FitsReserved(infos, used, reserved, cands[t], b.volume) then Some(t)
    else FirstFittingFrom(infos, used, reserved, b, cands, t + 1)
  }

  /**
   * Where one box goes, given the rooms' used volumes and the reservations of
   * the boxes after it. A box with no legal room is rejected; a constrained
   * box goes to its room when raw capacity allows; a flexible box goes to the
   * first legal room that passes the reserved bound, or is rejected.
   */
  function Decide(infos: seq<RoomInfo>, used: seq<int>, reserved: seq<int>, b: Box): (d: Choice)
    requires |used| == |infos| && |reserved| == |infos|
    ensures d.Some? ==> d.value < |infos|
  {
    var f := Feasible(infos, b);
    FeasibleBelowBound(infos, b, |infos|);
    if |f| == 0 then None
    else if |f| == 1 then
      (if FitsRaw(infos, used, f[0], b.volume) then Some(f[0]) else None)
    else
      match FirstFittingFrom(infos, used, reserved, b, f, 0)
      case None => None
      case Some(p) => Some(f[p])
  }

  /** The bookkeeping of one pass: each room's contents, the rejects, and each box's decision so far. */
  datatype State = State(contents: seq<seq<Box>>, rejected: seq<Box>, trace: seq<Choice>)

  /** Processes box `k`: room `i` gets it appended, or it is appended to the rejects. */
  function Step(infos: seq<RoomInfo>, boxes: seq<Box>, k: nat, st: State): State
    requires k < |boxes| && |st.contents| == |infos|
  {
    var b := boxes[k];
    var d := Decide(infos, Used(st.contents), Reservations(infos, boxes[k + 1..]), b);
    match d
    case None => State(st.contents, st.rejected + [b], st.trace + [d])
    case Some(i) => State(st.contents[i := st.contents[i] + [b]], st.rejected, st.trace + [d])
  }

  /** Processes boxes `k`, `k + 1`, ... in order. */
  function RunFrom(infos: seq<RoomInfo>, boxes: seq<Box>, k: nat, st: State): (out: State)
    requires k <= |boxes| && |st.contents| == |infos|
    ensures |out.contents| == |infos| && |out.trace| == |st.trace| + |boxes| - k
    decreases |boxes| - k
  {
    if k == |boxes| then st else RunFrom(infos, boxes, k + 1, Step(infos, boxes, k, st))
  }

  /** One pass over `boxes` into rooms whose contents are `init` beforehand. */
  function Allocate(infos: seq<RoomInfo>, init: seq<seq<Box>>, boxes: seq<Box>): (out: State)
    requires |init| == |infos|
    ensures |out.contents| == |infos| && |out.trace| == |boxes|
  {
    RunFrom(infos, boxes, 0, State(init, [], []))
  }

  /** The boxes whose decision is `x`, in their original order. */
  function Select(bs: seq<Box>, ds: seq<Choice>, x: Choice): seq<Box>
    requires |bs| == |ds|
    decreases |bs|
  {
    if bs == [] then []
    else Select(bs[..|bs| - 1], ds[..|ds| - 1], x) + (if ds[|ds| - 1] == x then [bs[|bs| - 1]] else [])
  }

  /** The boxes whose decision is `x`, as a multiset. */
  ghost function Gained(bs: seq<Box>, ds: seq<Choice>, x: Choice): multiset<Box>
    requires |bs| == |ds|
    decreases |bs|
  {
    if bs == [] then multiset{}
    else Gained(bs[..|bs| - 1], ds[..|ds| - 1], x) + (if ds[|ds| - 1] == x then multiset{bs[|bs| - 1]} else multiset{})
  }

  /** The boxes that went to some room, whichever it was, as a multiset. */
  ghost function Stored(bs: seq<Box>, ds: seq<Choice>): multiset<Box>
    requires |bs| == |ds|
    decreases |bs|
  {
    if bs == [] then multiset{}
    else Stored(bs[..|bs| - 1], ds[..|ds| - 1]) + (if ds[|ds| - 1].Some? then multiset{bs[|bs| - 1]} else multiset{})
  }
}
