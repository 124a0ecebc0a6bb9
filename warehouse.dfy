/**
 * The warehouse: an ordered list of rooms and the one-pass allocator that
 * distributes a batch of boxes over them. The allocator keeps two running
 * tallies, one per room: the volume already used, and the volume still
 * reserved by the constrained boxes of the batch that have not been processed
 * yet. It is proved to do exactly what Allocation.Allocate describes.
 */
module Warehouses {
  import opened HazmatFlags
  import opened Boxes
  import opened Rooms
  import opened Allocation
  import opened AllocationLaws

  /** The fixed attributes of every room, in order. */
  function Infos(rooms: seq<Room>): (infos: seq<RoomInfo>)
    ensures |infos| == |rooms|
    ensures forall i :: 0 <= i < |rooms| ==> infos[i] == rooms[i].Info()
  {
    seq(|rooms|, i requires 0 <= i < |rooms| => rooms[i].Info())
  }

  /** The current contents of every room, in order. */
  function Snapshot(rooms: seq<Room>): (contents: seq<seq<Box>>)
    reads rooms
    ensures |contents| == |rooms|
    ensures forall i :: 0 <= i < |rooms| ==> contents[i] == rooms[i].boxes
  {
    seq(|rooms|, i requires 0 <= i < |rooms| reads rooms => rooms[i].boxes)
  }

  /** Total volume of a list of boxes, added up front to back. */
  method TotalVolume(bs: seq<Box>) returns (s: int)
    ensures s == Sum(bs)
  {
    s := 0;
    var j := 0;
    while j < |bs|
      invariant 0 <= j <= |bs|
      invariant s == Sum(bs[..j])
    {
      assert bs[..j + 1][..j] == bs[..j];
      s := s + bs[j].volume;
      j := j + 1;
    }
    assert bs[..|bs|] == bs;
  }

  /** The rooms a box is legal for, in room order. */
  method LegalRooms(infos: seq<RoomInfo>, b: Box) returns (f: seq<nat>)
    ensures f == Feasible(infos, b)
  {
    f := [];
    var j := 0;
    while j < |infos|
      invariant 0 <= j <= |infos|
      invariant f == FeasibleBelow(infos, b, j)
    {
      if Covers(infos[j].hazmatFlags, b.hazmatFlags) && !(b.volume > StairsLimit && infos[j].stairs) {
        f := f + [j];
      }
      j := j + 1;
    }
  }

  /**
   * Where box `b` goes, given its legal rooms `f`, the used volumes and the
   * reservations of the boxes after it.
   */
  method ChooseRoom(infos: seq<RoomInfo>, used: seq<int>, reserve: seq<int>, b: Box, f: seq<nat>)
    returns (d: Choice)
    requires |used| == |infos| && |reserve| == |infos|
    requires f == Feasible(infos, b)
    ensures d == Decide(infos, used, reserve, b)
  {
    FeasibleBelowExact(infos, b, |infos|);
    if |f| == 0 {
      d := None;
    } else if |f| == 1 {
      d := if used[f[0]] + b.volume <= infos[f[0]].volume then Some(f[0]) else None;
    } else {
      var t := 0;
      while t < |f| && used[f[t]] + b.volume > infos[f[t]].volume - reserve[f[t]]
        invariant 0 <= t <= |f|
        invariant FirstFittingFrom(infos, used, reserve, b, f, 0)
                  == FirstFittingFrom(infos, used, reserve, b, f, t)
        decreases |f| - t
      {
        t := t + 1;
      }
      d := if t < |f| then Some(f[t]) else None;
    }
  }

  /** The volume every room already holds. */
  method UsedVolumes(contents: seq<seq<Box>>) returns (used: seq<int>)
    ensures used == Used(contents)
  {
    used := [];
    var r := 0;
    while r < |contents|
      invariant 0 <= r <= |contents|
      invariant |used| == r
      invariant forall i :: 0 <= i < r ==> used[i] == Sum(contents[i])
    {
      var s := TotalVolume(contents[r]);
      used := used + [s];
      r := r + 1;
    }
  }

  /** The volume every room must keep free for the constrained boxes of `boxes`. */
  method ReservationTally(infos: seq<RoomInfo>, boxes: seq<Box>) returns (reserve: seq<int>)
    ensures reserve == Reservations(infos, boxes)
  {
    reserve := seq(|infos|, i => 0);
    var k := |boxes|;
    while k > 0
      invariant 0 <= k <= |boxes|
      invariant reserve == Reservations(infos, boxes[k..])
    {
      k := k - 1;
      var f := LegalRooms(infos, boxes[k]);
      FeasibleBelowExact(infos, boxes[k], |infos|);
      assert boxes[k..][1..] == boxes[k + 1..];
      if |f| == 1 {
        reserve := reserve[f[0] := reserve[f[0]] + boxes[k].volume];
      }
    }
    assert boxes[0..] == boxes;
  }

  /**
   * Taking box `k`, whose legal rooms are `f`, off the front of the remaining
   * batch takes its own volume off its room's reservation when it is constrained.
   */
  lemma {:induction false} ReservationsDrop(infos: seq<RoomInfo>, boxes: seq<Box>, k: nat, f: seq<nat>, reserve: seq<int>)
    requires k < |boxes| && f == Feasible(infos, boxes[k])
    requires reserve == Reservations(infos, boxes[k..])
    ensures |reserve| == |infos| && (|f| == 1 ==> f[0] < |infos|)
    ensures Reservations(infos, boxes[k + 1..])
         == if |f| == 1 then reserve[f[0] := reserve[f[0]] - boxes[k].volume] else reserve
  {
    FeasibleBelowBound(infos, boxes[k], |infos|);
    assert boxes[k..] == [boxes[k]] + boxes[k + 1..];
    ReservationsCons(infos, boxes[k], boxes[k + 1..]);
  }

  /**
   * One step of the pass as the tallies see it: once box `k`'s own reservation
   * is taken off, its decision `d` moves the state exactly as Step does.
   */
  lemma StepTallies(infos: seq<RoomInfo>, boxes: seq<Box>, k: nat, st: State,
                    used: seq<int>, reserve: seq<int>, d: Choice)
    requires k < |boxes| && |st.contents| == |infos|
    requires used == Used(st.contents) && reserve == Reservations(infos, boxes[k + 1..])
    requires d == Decide(infos, used, reserve, boxes[k])
    ensures var st' := Step(infos, boxes, k, st);
      && |st'.contents| == |infos|
      && RunFrom(infos, boxes, k, st) == RunFrom(infos, boxes, k + 1, st')
      && (d.None? ==> st'.contents == st.contents && st'.rejected == st.rejected + [boxes[k]])
      && (d.Some? ==>
            && st'.contents == st.contents[d.value := st.contents[d.value] + [boxes[k]]]
            && st'.rejected == st.rejected
            && Used(st'.contents) == used[d.value := used[d.value] + boxes[k].volume])
  {
    if d.Some? {
      UsedAppend(st.contents, d.value, boxes[k]);
    }
  }

  /**
   * Processes box `k` on the tallies alone: finds its legal rooms, takes its
   * own reservation off, and decides where it goes. `next` is the state Step
   * moves to, and the new tallies are those of `next`.
   */
  method Advance(infos: seq<RoomInfo>, boxes: seq<Box>, k: nat, used: seq<int>, reserve: seq<int>,
                 ghost st: State)
    returns (d: Choice, used': seq<int>, reserve': seq<int>, ghost next: State)
    requires k < |boxes| && |st.contents| == |infos|
    requires used == Used(st.contents) && reserve == Reservations(infos, boxes[k..])
    ensures |next.contents| == |infos|
    ensures RunFrom(infos, boxes, k, st) == RunFrom(infos, boxes, k + 1, next)
    ensures used' == Used(next.contents) && reserve' == Reservations(infos, boxes[k + 1..])
    ensures d.None? ==> next.contents == st.contents && next.rejected == st.rejected + [boxes[k]]
    ensures d.Some? ==> && d.value < |infos|
                        && next.contents == st.contents[d.value := st.contents[d.value] + [boxes[k]]]
                        && next.rejected == st.rejected
  {
    var b := boxes[k];
    var f := LegalRooms(infos, b);
    ReservationsDrop(infos, boxes, k, f, reserve);
    // The box is no longer ahead of itself.
    reserve' := if |f| == 1 then reserve[f[0] := reserve[f[0]] - b.volume] else reserve;
    d := ChooseRoom(infos, used, reserve', b, f);
    StepTallies(infos, boxes, k, st, used, reserve', d);
    used' := if d.None? then used else used[d.value := used[d.value] + b.volume];
    next := Step(infos, boxes, k, st);
  }

  class Warehouse {
    const rooms: seq<Room>

    constructor (rooms: seq<Room>)
      ensures this.rooms == rooms
    {
      this.rooms := rooms;
    }

    /** The rooms are distinct objects. */
    predicate DistinctRooms() {
      forall i, j :: 0 <= i < j < |rooms| ==> rooms[i] != rooms[j]
    }

    /**
     * Distributes `boxes` over the rooms in one pass, in order, and returns
     * the boxes that found no room, in order. Every room's new contents and
     * the rejects are exactly those of Allocate, started from the rooms'
     * contents at the call.
     */
    method AddBoxes(boxes: seq<Box>) returns (rejected: seq<Box>)
      requires DistinctRooms()
      modifies rooms
      ensures var out := Allocate(Infos(rooms), old(Snapshot(rooms)), boxes);
        && rejected == out.rejected
        && forall i :: 0 <= i < |rooms| ==> rooms[i].boxes == out.contents[i]
    {
      var infos := Infos(rooms);
      var init := Snapshot(rooms);
      var used := UsedVolumes(init);
      var reserve := ReservationTally(infos, boxes);
      var k := 0;

      // The pass.
      rejected := [];
      ghost var st := State(init, [], []);
      while k < |boxes|
        invariant 0 <= k <= |boxes|
        invariant |st.contents| == |infos|
        invariant RunFrom(infos, boxes, 0, State(init, [], [])) == RunFrom(infos, boxes, k, st)
        invariant used == Used(st.contents)
        invariant reserve == Reservations(infos, boxes[k..])
        invariant rejected == st.rejected
        invariant forall i :: 0 <= i < |rooms| ==> rooms[i].boxes == st.contents[i]
      {
        var d;
        ghost var next;
        d, used, reserve, next := Advance(infos, boxes, k, used, reserve, st);
        if d.None? {
          rejected := rejected + [boxes[k]];
        } else {
          rooms[d.value].AddBox(boxes[k]);
        }
        st := next;
        k := k + 1;
      }
    }
  }
}
