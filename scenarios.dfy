/**
 * The allocator's documented examples, replayed on the pure model: each lemma
 * walks the pass box by box and states the final contents and rejects.
 */
module Scenarios {
  import opened HazmatFlags
  import opened Boxes
  import opened Rooms
  import opened Allocation
  import opened AllocationLaws

  // ---------------------------------------------------------------------------
  // Walking the pass one box at a time

  /** The state after box `b` went to room `i`. */
  function Put(st: State, i: nat, b: Box): State
    requires i < |st.contents|
  {
    State(st.contents[i := st.contents[i] + [b]], st.rejected, st.trace + [Some(i)])
  }

  /** The state after box `b` was rejected. */
  function Drop(st: State, b: Box): State {
    State(st.contents, st.rejected + [b], st.trace + [None])
  }

  /** Box `k` goes to room `i`: the pass continues from Put, whose used volumes grow by the box's. */
  lemma {:induction false} Placed(infos: seq<RoomInfo>, boxes: seq<Box>, k: nat, st: State, used: seq<int>, i: nat)
    requires k < |boxes| && |st.contents| == |infos| && i < |infos|
    requires used == Used(st.contents)
    requires Decide(infos, used, Reservations(infos, boxes[k + 1..]), boxes[k]) == Some(i)
    ensures RunFrom(infos, boxes, k, st) == RunFrom(infos, boxes, k + 1, Put(st, i, boxes[k]))
    ensures Used(Put(st, i, boxes[k]).contents) == used[i := used[i] + boxes[k].volume]
  {
    assert Step(infos, boxes, k, st) == Put(st, i, boxes[k]);
    UsedAppend(st.contents, i, boxes[k]);
  }

  /** Box `k` is rejected: the pass continues from Drop. */
  lemma {:induction false} Rejected(infos: seq<RoomInfo>, boxes: seq<Box>, k: nat, st: State, used: seq<int>)
    requires k < |boxes| && |st.contents| == |infos|
    requires used == Used(st.contents)
    requires Decide(infos, used, Reservations(infos, boxes[k + 1..]), boxes[k]).None?
    ensures RunFrom(infos, boxes, k, st) == RunFrom(infos, boxes, k + 1, Drop(st, boxes[k]))
  {
    assert Step(infos, boxes, k, st) == Drop(st, boxes[k]);
  }

  /** The reservations of `boxes[k..]`: those of `boxes[k + 1..]`, plus box `k` in its room when it is constrained. */
  lemma ReservationsFrom(infos: seq<RoomInfo>, boxes: seq<Box>, k: nat)
    requires k < |boxes|
    ensures Reservations(infos, boxes[k..])
            == match Forced(infos, boxes[k])
               case None => Reservations(infos, boxes[k + 1..])
               case Some(i) => Reservations(infos, boxes[k + 1..])[i := Reservations(infos, boxes[k + 1..])[i] + boxes[k].volume]
  {
    assert boxes[k..] == [boxes[k]] + boxes[k + 1..];
    ReservationsCons(infos, boxes[k], boxes[k + 1..]);
  }

  /** The legal rooms of a box in a one-room warehouse. */
  lemma FeasibleOfOne(infos: seq<RoomInfo>, b: Box)
    requires |infos| == 1
    ensures Feasible(infos, b) == if Legal(b, infos[0]) then [0] else []
  {
    assert FeasibleBelow(infos, b, 0) == [];
  }

  /** The legal rooms of a box in a two-room warehouse. */
  lemma FeasibleOfTwo(infos: seq<RoomInfo>, b: Box)
    requires |infos| == 2
    ensures Feasible(infos, b) == (if Legal(b, infos[0]) then [0] else []) + (if Legal(b, infos[1]) then [1] else [])
  {
    assert FeasibleBelow(infos, b, 0) == [];
    assert FeasibleBelow(infos, b, 1) == if Legal(b, infos[0]) then [0] else [];
  }

  /** The legal rooms of a box in a three-room warehouse. */
  lemma FeasibleOfThree(infos: seq<RoomInfo>, b: Box)
    requires |infos| == 3
    ensures Feasible(infos, b) == (if Legal(b, infos[0]) then [0] else []) + (if Legal(b, infos[1]) then [1] else [])
                                  + (if Legal(b, infos[2]) then [2] else [])
  {
    assert FeasibleBelow(infos, b, 0) == [];
    assert FeasibleBelow(infos, b, 1) == if Legal(b, infos[0]) then [0] else [];
    assert FeasibleBelow(infos, b, 2) == (if Legal(b, infos[0]) then [0] else []) + (if Legal(b, infos[1]) then [1] else []);
  }

  /** A box with no legal room is rejected. */
  lemma DecideNowhere(infos: seq<RoomInfo>, used: seq<int>, reserved: seq<int>, b: Box)
    requires |used| == |infos| && |reserved| == |infos|
    requires Feasible(infos, b) == []
    ensures Decide(infos, used, reserved, b) == None
  {
  }

  /** A box with one legal room goes there exactly when raw capacity allows. */
  lemma DecideForced(infos: seq<RoomInfo>, used: seq<int>, reserved: seq<int>, b: Box, i: nat)
    requires |used| == |infos| && |reserved| == |infos| && i < |infos|
    requires Feasible(infos, b) == [i]
    ensures Decide(infos, used, reserved, b) == if used[i] + b.volume <= infos[i].volume then Some(i) else None
  {
  }

  /** A box with two legal rooms goes to the first that passes the reserved bound, if either does. */
  lemma DecideBetweenTwo(infos: seq<RoomInfo>, used: seq<int>, reserved: seq<int>, b: Box, i: nat, j: nat)
    requires |used| == |infos| && |reserved| == |infos| && i < |infos| && j < |infos|
    requires Feasible(infos, b) == [i, j]
    ensures Decide(infos, used, reserved, b)
         == if used[i] + b.volume <= infos[i].volume - reserved[i] then Some(i)
            else if used[j] + b.volume <= infos[j].volume - reserved[j] then Some(j)
            else None
  {
    var f := [i, j];
    assert FirstFittingFrom(infos, used, reserved, b, f, 2) == None;
    assert FirstFittingFrom(infos, used, reserved, b, f, 1)
        == if used[j] + b.volume <= infos[j].volume - reserved[j] then Some(1) else None;
  }

  /** Put on a one-room state. */
  lemma PutOfOne(a: seq<Box>, rej: seq<Box>, tr: seq<Choice>, x: Box)
    ensures Put(State([a], rej, tr), 0, x) == State([a + [x]], rej, tr + [Some(0)])
  {
  }

  /** Put on a two-room state, room by room. */
  lemma PutOfTwo(a: seq<Box>, b: seq<Box>, rej: seq<Box>, tr: seq<Choice>, i: nat, x: Box)
    requires i < 2
    ensures Put(State([a, b], rej, tr), i, x)
         == if i == 0 then State([a + [x], b], rej, tr + [Some(0)]) else State([a, b + [x]], rej, tr + [Some(1)])
  {
  }

  /** Put on a three-room state, room by room. */
  lemma PutOfThree(a: seq<Box>, b: seq<Box>, c: seq<Box>, rej: seq<Box>, tr: seq<Choice>, i: nat, x: Box)
    requires i < 3
    ensures Put(State([a, b, c], rej, tr), i, x)
         == if i == 0 then State([a + [x], b, c], rej, tr + [Some(0)])
            else if i == 1 then State([a, b + [x], c], rej, tr + [Some(1)])
            else State([a, b, c + [x]], rej, tr + [Some(2)])
  {
  }

  // ---------------------------------------------------------------------------
  // The examples
  //
  // Each example is split into small lemmas so that every proof obligation
  // stays small: `...Facts` gives the legal rooms of every box and the
  // reservations of every suffix of the batch; `...From<k>` walks the pass two
  // boxes at a time from box k; `...Run` chains those walks into the whole
  // pass; and the lemma named after the example reads off the final contents
  // and rejects. The boxes are parameters fixed by `requires`, so the solver
  // works on names instead of unfolding literals.

  // One room of 100; one box of 10.
  lemma OneBoxGoesIntoTheOnlyRoomFacts(box1: Box)
    requires box1 == Box("box1", 10, NONE)
    ensures var infos := [RoomInfo(100, false, NONE)];
      && Feasible(infos, box1) == [0]
  {
    var infos := [RoomInfo(100, false, NONE)];
    FeasibleOfOne(infos, box1);
  }

  lemma OneBoxGoesIntoTheOnlyRoomFrom0(box1: Box, st: State)
    requires box1 == Box("box1", 10, NONE)
    requires |st.contents| == 1 && Used(st.contents) == [0]
    ensures RunFrom([RoomInfo(100, false, NONE)], [box1], 0, st)
         == Put(st, 0, box1)
  {
    var infos := [RoomInfo(100, false, NONE)];
    var boxes := [box1];
    OneBoxGoesIntoTheOnlyRoomFacts(box1);
    var st0, u0 := st, [0];
    DecideForced(infos, u0, Reservations(infos, boxes[1..]), boxes[0], 0);
    Placed(infos, boxes, 0, st0, u0, 0);
    var st1, u1 := Put(st0, 0, boxes[0]), u0[0 := u0[0] + boxes[0].volume];
    assert st1 == Put(st, 0, box1);
  }

  lemma OneBoxGoesIntoTheOnlyRoomRun(box1: Box)
    requires box1 == Box("box1", 10, NONE)
    ensures Allocate([RoomInfo(100, false, NONE)], [[]], [box1])
         == Put(State([[]], [], []), 0, box1)
  {
    assert Used([[]]) == [0];
    OneBoxGoesIntoTheOnlyRoomFrom0(box1, State([[]], [], []));
  }

  /** A single box goes into the single room. */
  lemma OneBoxGoesIntoTheOnlyRoom()
    ensures var box1 := Box("box1", 10, NONE);
      var out := Allocate([RoomInfo(100, false, NONE)], [[]], [box1]);
      out.contents == [[box1]] && out.rejected == []
  {
    var box1 := Box("box1", 10, NONE);
    OneBoxGoesIntoTheOnlyRoomRun(box1);
    PutOfOne([], [], [], box1);
    assert [] + [box1] == [box1];
  }

  // Rooms of 100 and 1000; ordinary boxes of 10, 70, 15 and 10.
  lemma FirstRoomFillsFirstFacts(box1: Box, box2: Box, box3: Box, box4: Box)
    requires box1 == Box("box1", 10, NONE) && box2 == Box("box2", 70, NONE)
    requires box3 == Box("box3", 15, NONE) && box4 == Box("box4", 10, NONE)
    ensures var infos := [RoomInfo(100, false, NONE), RoomInfo(1000, false, NONE)];
      var boxes := [box1, box2, box3, box4];
      && Feasible(infos, box1) == [0, 1]
      && Feasible(infos, box2) == [0, 1]
      && Feasible(infos, box3) == [0, 1]
      && Feasible(infos, box4) == [0, 1]
      && Reservations(infos, boxes[1..]) == [0, 0]
      && Reservations(infos, boxes[2..]) == [0, 0]
      && Reservations(infos, boxes[3..]) == [0, 0]
      && Reservations(infos, boxes[4..]) == [0, 0]
  {
    var infos := [RoomInfo(100, false, NONE), RoomInfo(1000, false, NONE)];
    var boxes := [box1, box2, box3, box4];
    FeasibleOfTwo(infos, box1);
    FeasibleOfTwo(infos, box2);
    FeasibleOfTwo(infos, box3);
    FeasibleOfTwo(infos, box4);
    assert Reservations(infos, boxes[4..]) == [0, 0];
    ReservationsFrom(infos, boxes, 3);
    assert Reservations(infos, boxes[3..]) == [0, 0];
    ReservationsFrom(infos, boxes, 2);
    assert Reservations(infos, boxes[2..]) == [0, 0];
    ReservationsFrom(infos, boxes, 1);
    assert Reservations(infos, boxes[1..]) == [0, 0];
  }

  lemma FirstRoomFillsFirstFrom0(box1: Box, box2: Box, box3: Box, box4: Box, st: State)
    requires box1 == Box("box1", 10, NONE) && box2 == Box("box2", 70, NONE)
    requires box3 == Box("box3", 15, NONE) && box4 == Box("box4", 10, NONE)
    requires |st.contents| == 2 && Used(st.contents) == [0, 0]
    ensures var infos := [RoomInfo(100, false, NONE), RoomInfo(1000, false, NONE)];
      var boxes := [box1, box2, box3, box4];
      var st' := Put(Put(st, 0, box1), 0, box2);
      && RunFrom(infos, boxes, 0, st) == RunFrom(infos, boxes, 2, st')
      && |st'.contents| == 2 && Used(st'.contents) == [80, 0]
  {
    var infos := [RoomInfo(100, false, NONE), RoomInfo(1000, false, NONE)];
    var boxes := [box1, box2, box3, box4];
    FirstRoomFillsFirstFacts(box1, box2, box3, box4);
    var st0, u0 := st, [0, 0];
    DecideBetweenTwo(infos, u0, [0, 0], boxes[0], 0, 1);
    Placed(infos, boxes, 0, st0, u0, 0);
    var st1, u1 := Put(st0, 0, boxes[0]), u0[0 := u0[0] + boxes[0].volume];
    DecideBetweenTwo(infos, u1, [0, 0], boxes[1], 0, 1);
    Placed(infos, boxes, 1, st1, u1, 0);
    var st2, u2 := Put(st1, 0, boxes[1]), u1[0 := u1[0] + boxes[1].volume];
    assert st2 == Put(Put(st, 0, box1), 0, box2);
    assert u2 == [80, 0];
  }

  lemma FirstRoomFillsFirstFrom2(box1: Box, box2: Box, box3: Box, box4: Box, st: State)
    requires box1 == Box("box1", 10, NONE) && box2 == Box("box2", 70, NONE)
    requires box3 == Box("box3", 15, NONE) && box4 == Box("box4", 10, NONE)
    requires |st.contents| == 2 && Used(st.contents) == [80, 0]
    ensures RunFrom([RoomInfo(100, false, NONE), RoomInfo(1000, false, NONE)], [box1, box2, box3, box4], 2, st)
         == Put(Put(st, 0, box3), 1, box4)
  {
    var infos := [RoomInfo(100, false, NONE), RoomInfo(1000, false, NONE)];
    var boxes := [box1, box2, box3, box4];
    FirstRoomFillsFirstFacts(box1, box2, box3, box4);
    var st2, u2 := st, [80, 0];
    DecideBetweenTwo(infos, u2, [0, 0], boxes[2], 0, 1);
    Placed(infos, boxes, 2, st2, u2, 0);
    var st3, u3 := Put(st2, 0, boxes[2]), u2[0 := u2[0] + boxes[2].volume];
    DecideBetweenTwo(infos, u3, [0, 0], boxes[3], 0, 1);
    Placed(infos, boxes, 3, st3, u3, 1);
    var st4, u4 := Put(st3, 1, boxes[3]), u3[1 := u3[1] + boxes[3].volume];
    assert st4 == Put(Put(st, 0, box3), 1, box4);
  }

  lemma FirstRoomFillsFirstRun(box1: Box, box2: Box, box3: Box, box4: Box)
    requires box1 == Box("box1", 10, NONE) && box2 == Box("box2", 70, NONE)
    requires box3 == Box("box3", 15, NONE) && box4 == Box("box4", 10, NONE)
    ensures Allocate([RoomInfo(100, false, NONE), RoomInfo(1000, false, NONE)], [[], []], [box1, box2, box3, box4])
         == Put(Put(Put(Put(State([[], []], [], []), 0, box1), 0, box2), 0, box3), 1, box4)
  {
    assert Used([[], []]) == [0, 0];
    FirstRoomFillsFirstFrom0(box1, box2, box3, box4, State([[], []], [], []));
    FirstRoomFillsFirstFrom2(box1, box2, box3, box4, Put(Put(State([[], []], [], []), 0, box1), 0, box2));
  }

  /** Ordinary boxes fill the first room until the next one does not fit, then spill into the second. */
  lemma FirstRoomFillsFirst()
    ensures var box1, box2, box3 := Box("box1", 10, NONE), Box("box2", 70, NONE), Box("box3", 15, NONE);
      var box4 := Box("box4", 10, NONE);
      var out := Allocate([RoomInfo(100, false, NONE), RoomInfo(1000, false, NONE)], [[], []], [box1, box2, box3, box4]);
      out.contents == [[box1, box2, box3], [box4]] && out.rejected == []
  {
    var box1, box2, box3 := Box("box1", 10, NONE), Box("box2", 70, NONE), Box("box3", 15, NONE);
    var box4 := Box("box4", 10, NONE);
    FirstRoomFillsFirstRun(box1, box2, box3, box4);
    PutOfTwo([], [], [], [], 0, box1);
    assert [] + [box1] == [box1];
    PutOfTwo([box1], [], [], [Some(0)], 0, box2);
    assert [box1] + [box2] == [box1, box2];
    PutOfTwo([box1, box2], [], [], [Some(0), Some(0)], 0, box3);
    assert [box1, box2] + [box3] == [box1, box2, box3];
    PutOfTwo([box1, box2, box3], [], [], [Some(0), Some(0), Some(0)], 1, box4);
    assert [] + [box4] == [box4];
  }

  // A basement of 1000 with stairs and a main room of 1000 without; ordinary boxes of 10, 50, 51 and 10.
  lemma LargeBoxAvoidsStairsFacts(box1: Box, box2: Box, box3: Box, box4: Box)
    requires box1 == Box("box1", 10, NONE) && box2 == Box("box2", 50, NONE)
    requires box3 == Box("box3", 51, NONE) && box4 == Box("box4", 10, NONE)
    ensures var infos := [RoomInfo(1000, true, NONE), RoomInfo(1000, false, NONE)];
      var boxes := [box1, box2, box3, box4];
      && Feasible(infos, box1) == [0, 1]
      && Feasible(infos, box2) == [0, 1]
      && Feasible(infos, box3) == [1]
      && Feasible(infos, box4) == [0, 1]
      && Reservations(infos, boxes[1..]) == [0, 51]
      && Reservations(infos, boxes[2..]) == [0, 51]
      && Reservations(infos, boxes[3..]) == [0, 0]
      && Reservations(infos, boxes[4..]) == [0, 0]
  {
    var infos := [RoomInfo(1000, true, NONE), RoomInfo(1000, false, NONE)];
    var boxes := [box1, box2, box3, box4];
    FeasibleOfTwo(infos, box1);
    FeasibleOfTwo(infos, box2);
    FeasibleOfTwo(infos, box3);
    FeasibleOfTwo(infos, box4);
    assert Reservations(infos, boxes[4..]) == [0, 0];
    ReservationsFrom(infos, boxes, 3);
    assert Reservations(infos, boxes[3..]) == [0, 0];
    ReservationsFrom(infos, boxes, 2);
    assert Reservations(infos, boxes[2..]) == [0, 51];
    ReservationsFrom(infos, boxes, 1);
    assert Reservations(infos, boxes[1..]) == [0, 51];
  }

  lemma LargeBoxAvoidsStairsFrom0(box1: Box, box2: Box, box3: Box, box4: Box, st: State)
    requires box1 == Box("box1", 10, NONE) && box2 == Box("box2", 50, NONE)
    requires box3 == Box("box3", 51, NONE) && box4 == Box("box4", 10, NONE)
    requires |st.contents| == 2 && Used(st.contents) == [0, 0]
    ensures var infos := [RoomInfo(1000, true, NONE), RoomInfo(1000, false, NONE)];
      var boxes := [box1, box2, box3, box4];
      var st' := Put(Put(st, 0, box1), 0, box2);
      && RunFrom(infos, boxes, 0, st) == RunFrom(infos, boxes, 2, st')
      && |st'.contents| == 2 && Used(st'.contents) == [60, 0]
  {
    var infos := [RoomInfo(1000, true, NONE), RoomInfo(1000, false, NONE)];
    var boxes := [box1, box2, box3, box4];
    LargeBoxAvoidsStairsFacts(box1, box2, box3, box4);
    var st0, u0 := st, [0, 0];
    DecideBetweenTwo(infos, u0, [0, 51], boxes[0], 0, 1);
    Placed(infos, boxes, 0, st0, u0, 0);
    var st1, u1 := Put(st0, 0, boxes[0]), u0[0 := u0[0] + boxes[0].volume];
    DecideBetweenTwo(infos, u1, [0, 51], boxes[1], 0, 1);
    Placed(infos, boxes, 1, st1, u1, 0);
    var st2, u2 := Put(st1, 0, boxes[1]), u1[0 := u1[0] + boxes[1].volume];
    assert st2 == Put(Put(st, 0, box1), 0, box2);
    assert u2 == [60, 0];
  }

  lemma LargeBoxAvoidsStairsFrom2(box1: Box, box2: Box, box3: Box, box4: Box, st: State)
    requires box1 == Box("box1", 10, NONE) && box2 == Box("box2", 50, NONE)
    requires box3 == Box("box3", 51, NONE) && box4 == Box("box4", 10, NONE)
    requires |st.contents| == 2 && Used(st.contents) == [60, 0]
    ensures RunFrom([RoomInfo(1000, true, NONE), RoomInfo(1000, false, NONE)], [box1, box2, box3, box4], 2, st)
         == Put(Put(st, 1, box3), 0, box4)
  {
    var infos := [RoomInfo(1000, true, NONE), RoomInfo(1000, false, NONE)];
    var boxes := [box1, box2, box3, box4];
    LargeBoxAvoidsStairsFacts(box1, box2, box3, box4);
    var st2, u2 := st, [60, 0];
    DecideForced(infos, u2, [0, 0], boxes[2], 1);
    Placed(infos, boxes, 2, st2, u2, 1);
    var st3, u3 := Put(st2, 1, boxes[2]), u2[1 := u2[1] + boxes[2].volume];
    DecideBetweenTwo(infos, u3, [0, 0], boxes[3], 0, 1);
    Placed(infos, boxes, 3, st3, u3, 0);
    var st4, u4 := Put(st3, 0, boxes[3]), u3[0 := u3[0] + boxes[3].volume];
    assert st4 == Put(Put(st, 1, box3), 0, box4);
  }

  lemma LargeBoxAvoidsStairsRun(box1: Box, box2: Box, box3: Box, box4: Box)
    requires box1 == Box("box1", 10, NONE) && box2 == Box("box2", 50, NONE)
    requires box3 == Box("box3", 51, NONE) && box4 == Box("box4", 10, NONE)
    ensures Allocate([RoomInfo(1000, true, NONE), RoomInfo(1000, false, NONE)], [[], []], [box1, box2, box3, box4])
         == Put(Put(Put(Put(State([[], []], [], []), 0, box1), 0, box2), 1, box3), 0, box4)
  {
    assert Used([[], []]) == [0, 0];
    LargeBoxAvoidsStairsFrom0(box1, box2, box3, box4, State([[], []], [], []));
    LargeBoxAvoidsStairsFrom2(box1, box2, box3, box4, Put(Put(State([[], []], [], []), 0, box1), 0, box2));
  }

  /** A box over 50 never enters a room with stairs; a box of exactly 50 may. */
  lemma LargeBoxAvoidsStairs()
    ensures var box1, box2, box3 := Box("box1", 10, NONE), Box("box2", 50, NONE), Box("box3", 51, NONE);
      var box4 := Box("box4", 10, NONE);
      var out := Allocate([RoomInfo(1000, true, NONE), RoomInfo(1000, false, NONE)], [[], []], [box1, box2, box3, box4]);
      out.contents == [[box1, box2, box4], [box3]] && out.rejected == []
  {
    var box1, box2, box3 := Box("box1", 10, NONE), Box("box2", 50, NONE), Box("box3", 51, NONE);
    var box4 := Box("box4", 10, NONE);
    LargeBoxAvoidsStairsRun(box1, box2, box3, box4);
    PutOfTwo([], [], [], [], 0, box1);
    assert [] + [box1] == [box1];
    PutOfTwo([box1], [], [], [Some(0)], 0, box2);
    assert [box1] + [box2] == [box1, box2];
    PutOfTwo([box1, box2], [], [], [Some(0), Some(0)], 1, box3);
    assert [] + [box3] == [box3];
    PutOfTwo([box1, box2], [box3], [], [Some(0), Some(0), Some(1)], 0, box4);
    assert [box1, box2] + [box4] == [box1, box2, box4];
  }

  // One room of 100; ordinary boxes of 40, 40, 40 and 10.
  lemma OverflowIsRejectedFacts(box1: Box, box2: Box, box3: Box, box4: Box)
    requires box1 == Box("box1", 40, NONE) && box2 == Box("box2", 40, NONE)
    requires box3 == Box("box3", 40, NONE) && box4 == Box("box4", 10, NONE)
    ensures var infos := [RoomInfo(100, false, NONE)];
      && Feasible(infos, box1) == [0]
      && Feasible(infos, box2) == [0]
      && Feasible(infos, box3) == [0]
      && Feasible(infos, box4) == [0]
  {
    var infos := [RoomInfo(100, false, NONE)];
    FeasibleOfOne(infos, box1);
    FeasibleOfOne(infos, box2);
    FeasibleOfOne(infos, box3);
    FeasibleOfOne(infos, box4);
  }

  lemma OverflowIsRejectedFrom0(box1: Box, box2: Box, box3: Box, box4: Box, st: State)
    requires box1 == Box("box1", 40, NONE) && box2 == Box("box2", 40, NONE)
    requires box3 == Box("box3", 40, NONE) && box4 == Box("box4", 10, NONE)
    requires |st.contents| == 1 && Used(st.contents) == [0]
    ensures var infos := [RoomInfo(100, false, NONE)];
      var boxes := [box1, box2, box3, box4];
      var st' := Put(Put(st, 0, box1), 0, box2);
      && RunFrom(infos, boxes, 0, st) == RunFrom(infos, boxes, 2, st')
      && |st'.contents| == 1 && Used(st'.contents) == [80]
  {
    var infos := [RoomInfo(100, false, NONE)];
    var boxes := [box1, box2, box3, box4];
    OverflowIsRejectedFacts(box1, box2, box3, box4);
    var st0, u0 := st, [0];
    DecideForced(infos, u0, Reservations(infos, boxes[1..]), boxes[0], 0);
    Placed(infos, boxes, 0, st0, u0, 0);
    var st1, u1 := Put(st0, 0, boxes[0]), u0[0 := u0[0] + boxes[0].volume];
    DecideForced(infos, u1, Reservations(infos, boxes[2..]), boxes[1], 0);
    Placed(infos, boxes, 1, st1, u1, 0);
    var st2, u2 := Put(st1, 0, boxes[1]), u1[0 := u1[0] + boxes[1].volume];
    assert st2 == Put(Put(st, 0, box1), 0, box2);
    assert u2 == [80];
  }

  lemma OverflowIsRejectedFrom2(box1: Box, box2: Box, box3: Box, box4: Box, st: State)
    requires box1 == Box("box1", 40, NONE) && box2 == Box("box2", 40, NONE)
    requires box3 == Box("box3", 40, NONE) && box4 == Box("box4", 10, NONE)
    requires |st.contents| == 1 && Used(st.contents) == [80]
    ensures RunFrom([RoomInfo(100, false, NONE)], [box1, box2, box3, box4], 2, st)
         == Put(Drop(st, box3), 0, box4)
  {
    var infos := [RoomInfo(100, false, NONE)];
    var boxes := [box1, box2, box3, box4];
    OverflowIsRejectedFacts(box1, box2, box3, box4);
    var st2, u2 := st, [80];
    DecideForced(infos, u2, Reservations(infos, boxes[3..]), boxes[2], 0);
    Rejected(infos, boxes, 2, st2, u2);
    var st3 := Drop(st2, boxes[2]);
    DecideForced(infos, u2, Reservations(infos, boxes[4..]), boxes[3], 0);
    Placed(infos, boxes, 3, st3, u2, 0);
    var st4, u4 := Put(st3, 0, boxes[3]), u2[0 := u2[0] + boxes[3].volume];
    assert st4 == Put(Drop(st, box3), 0, box4);
  }

  lemma OverflowIsRejectedRun(box1: Box, box2: Box, box3: Box, box4: Box)
    requires box1 == Box("box1", 40, NONE) && box2 == Box("box2", 40, NONE)
    requires box3 == Box("box3", 40, NONE) && box4 == Box("box4", 10, NONE)
    ensures Allocate([RoomInfo(100, false, NONE)], [[]], [box1, box2, box3, box4])
         == Put(Drop(Put(Put(State([[]], [], []), 0, box1), 0, box2), box3), 0, box4)
  {
    assert Used([[]]) == [0];
    OverflowIsRejectedFrom0(box1, box2, box3, box4, State([[]], [], []));
    OverflowIsRejectedFrom2(box1, box2, box3, box4, Put(Put(State([[]], [], []), 0, box1), 0, box2));
  }

  /** A box that does not fit is rejected, and a later, smaller box still goes in. */
  lemma OverflowIsRejected()
    ensures var box1, box2, box3 := Box("box1", 40, NONE), Box("box2", 40, NONE), Box("box3", 40, NONE);
      var box4 := Box("box4", 10, NONE);
      var out := Allocate([RoomInfo(100, false, NONE)], [[]], [box1, box2, box3, box4]);
      out.contents == [[box1, box2, box4]] && out.rejected == [box3]
  {
    var box1, box2, box3 := Box("box1", 40, NONE), Box("box2", 40, NONE), Box("box3", 40, NONE);
    var box4 := Box("box4", 10, NONE);
    OverflowIsRejectedRun(box1, box2, box3, box4);
    PutOfOne([], [], [], box1);
    assert [] + [box1] == [box1];
    PutOfOne([box1], [], [Some(0)], box2);
    assert [box1] + [box2] == [box1, box2];
    assert [] + [box3] == [box3];
    PutOfOne([box1, box2], [box3], [Some(0), Some(0), None], box4);
    assert [box1, box2] + [box4] == [box1, box2, box4];
  }

  // A loading dock of 100 and a chemical room of 100; boxes of 10, the second of them chemical.
  lemma ChemicalBoxGoesToChemicalRoomFacts(box1: Box, box2: Box, box3: Box)
    requires box1 == Box("box1", 10, NONE) && box2 == Box("box2", 10, CHEMICAL)
    requires box3 == Box("box3", 10, NONE)
    ensures var infos := [RoomInfo(100, false, NONE), RoomInfo(100, false, CHEMICAL)];
      var boxes := [box1, box2, box3];
      && Feasible(infos, box1) == [0, 1]
      && Feasible(infos, box2) == [1]
      && Feasible(infos, box3) == [0, 1]
      && Reservations(infos, boxes[1..]) == [0, 10]
      && Reservations(infos, boxes[2..]) == [0, 0]
      && Reservations(infos, boxes[3..]) == [0, 0]
  {
    var infos := [RoomInfo(100, false, NONE), RoomInfo(100, false, CHEMICAL)];
    var boxes := [box1, box2, box3];
    FeasibleOfTwo(infos, box1);
    FeasibleOfTwo(infos, box2);
    FeasibleOfTwo(infos, box3);
    assert Reservations(infos, boxes[3..]) == [0, 0];
    ReservationsFrom(infos, boxes, 2);
    assert Reservations(infos, boxes[2..]) == [0, 0];
    ReservationsFrom(infos, boxes, 1);
    assert Reservations(infos, boxes[1..]) == [0, 10];
  }

  lemma ChemicalBoxGoesToChemicalRoomFrom0(box1: Box, box2: Box, box3: Box, st: State)
    requires box1 == Box("box1", 10, NONE) && box2 == Box("box2", 10, CHEMICAL)
    requires box3 == Box("box3", 10, NONE)
    requires |st.contents| == 2 && Used(st.contents) == [0, 0]
    ensures var infos := [RoomInfo(100, false, NONE), RoomInfo(100, false, CHEMICAL)];
      var boxes := [box1, box2, box3];
      var st' := Put(Put(st, 0, box1), 1, box2);
      && RunFrom(infos, boxes, 0, st) == RunFrom(infos, boxes, 2, st')
      && |st'.contents| == 2 && Used(st'.contents) == [10, 10]
  {
    var infos := [RoomInfo(100, false, NONE), RoomInfo(100, false, CHEMICAL)];
    var boxes := [box1, box2, box3];
    ChemicalBoxGoesToChemicalRoomFacts(box1, box2, box3);
    var st0, u0 := st, [0, 0];
    DecideBetweenTwo(infos, u0, [0, 10], boxes[0], 0, 1);
    Placed(infos, boxes, 0, st0, u0, 0);
    var st1, u1 := Put(st0, 0, boxes[0]), u0[0 := u0[0] + boxes[0].volume];
    DecideForced(infos, u1, [0, 0], boxes[1], 1);
    Placed(infos, boxes, 1, st1, u1, 1);
    var st2, u2 := Put(st1, 1, boxes[1]), u1[1 := u1[1] + boxes[1].volume];
    assert st2 == Put(Put(st, 0, box1), 1, box2);
    assert u2 == [10, 10];
  }

  lemma ChemicalBoxGoesToChemicalRoomFrom2(box1: Box, box2: Box, box3: Box, st: State)
    requires box1 == Box("box1", 10, NONE) && box2 == Box("box2", 10, CHEMICAL)
    requires box3 == Box("box3", 10, NONE)
    requires |st.contents| == 2 && Used(st.contents) == [10, 10]
    ensures RunFrom([RoomInfo(100, false, NONE), RoomInfo(100, false, CHEMICAL)], [box1, box2, box3], 2, st)
         == Put(st, 0, box3)
  {
    var infos := [RoomInfo(100, false, NONE), RoomInfo(100, false, CHEMICAL)];
    var boxes := [box1, box2, box3];
    ChemicalBoxGoesToChemicalRoomFacts(box1, box2, box3);
    var st2, u2 := st, [10, 10];
    DecideBetweenTwo(infos, u2, [0, 0], boxes[2], 0, 1);
    Placed(infos, boxes, 2, st2, u2, 0);
    var st3, u3 := Put(st2, 0, boxes[2]), u2[0 := u2[0] + boxes[2].volume];
    assert st3 == Put(st, 0, box3);
  }

  lemma ChemicalBoxGoesToChemicalRoomRun(box1: Box, box2: Box, box3: Box)
    requires box1 == Box("box1", 10, NONE) && box2 == Box("box2", 10, CHEMICAL)
    requires box3 == Box("box3", 10, NONE)
    ensures Allocate([RoomInfo(100, false, NONE), RoomInfo(100, false, CHEMICAL)], [[], []], [box1, box2, box3])
         == Put(Put(Put(State([[], []], [], []), 0, box1), 1, box2), 0, box3)
  {
    assert Used([[], []]) == [0, 0];
    ChemicalBoxGoesToChemicalRoomFrom0(box1, box2, box3, State([[], []], [], []));
    ChemicalBoxGoesToChemicalRoomFrom2(box1, box2, box3, Put(Put(State([[], []], [], []), 0, box1), 1, box2));
  }

  /** A chemical box goes to the chemical room; the ordinary boxes stay in the first room. */
  lemma ChemicalBoxGoesToChemicalRoom()
    ensures var box1, box2, box3 := Box("box1", 10, NONE), Box("box2", 10, CHEMICAL), Box("box3", 10, NONE);
      var out := Allocate([RoomInfo(100, false, NONE), RoomInfo(100, false, CHEMICAL)], [[], []], [box1, box2, box3]);
      out.contents == [[box1, box3], [box2]] && out.rejected == []
  {
    var box1, box2, box3 := Box("box1", 10, NONE), Box("box2", 10, CHEMICAL), Box("box3", 10, NONE);
    ChemicalBoxGoesToChemicalRoomRun(box1, box2, box3);
    PutOfTwo([], [], [], [], 0, box1);
    assert [] + [box1] == [box1];
    PutOfTwo([box1], [], [], [Some(0)], 1, box2);
    assert [] + [box2] == [box2];
    PutOfTwo([box1], [box2], [], [Some(0), Some(1)], 0, box3);
    assert [box1] + [box3] == [box1, box3];
  }

  // A loading dock of 100 and a main room of 1000, neither certified; boxes of 10, the second of them chemical.
  lemma HazmatWithoutSafeRoomIsRejectedFacts(box1: Box, box2: Box, box3: Box)
    requires box1 == Box("box1", 10, NONE) && box2 == Box("box2", 10, CHEMICAL)
    requires box3 == Box("box3", 10, NONE)
    ensures var infos := [RoomInfo(100, false, NONE), RoomInfo(1000, false, NONE)];
      var boxes := [box1, box2, box3];
      && Feasible(infos, box1) == [0, 1]
      && Feasible(infos, box2) == []
      && Feasible(infos, box3) == [0, 1]
      && Reservations(infos, boxes[1..]) == [0, 0]
      && Reservations(infos, boxes[2..]) == [0, 0]
      && Reservations(infos, boxes[3..]) == [0, 0]
  {
    var infos := [RoomInfo(100, false, NONE), RoomInfo(1000, false, NONE)];
    var boxes := [box1, box2, box3];
    FeasibleOfTwo(infos, box1);
    FeasibleOfTwo(infos, box2);
    FeasibleOfTwo(infos, box3);
    assert Reservations(infos, boxes[3..]) == [0, 0];
    ReservationsFrom(infos, boxes, 2);
    assert Reservations(infos, boxes[2..]) == [0, 0];
    ReservationsFrom(infos, boxes, 1);
    assert Reservations(infos, boxes[1..]) == [0, 0];
  }

  lemma HazmatWithoutSafeRoomIsRejectedFrom0(box1: Box, box2: Box, box3: Box, st: State)
    requires box1 == Box("box1", 10, NONE) && box2 == Box("box2", 10, CHEMICAL)
    requires box3 == Box("box3", 10, NONE)
    requires |st.contents| == 2 && Used(st.contents) == [0, 0]
    ensures var infos := [RoomInfo(100, false, NONE), RoomInfo(1000, false, NONE)];
      var boxes := [box1, box2, box3];
      var st' := Drop(Put(st, 0, box1), box2);
      && RunFrom(infos, boxes, 0, st) == RunFrom(infos, boxes, 2, st')
      && |st'.contents| == 2 && Used(st'.contents) == [10, 0]
  {
    var infos := [RoomInfo(100, false, NONE), RoomInfo(1000, false, NONE)];
    var boxes := [box1, box2, box3];
    HazmatWithoutSafeRoomIsRejectedFacts(box1, box2, box3);
    var st0, u0 := st, [0, 0];
    DecideBetweenTwo(infos, u0, [0, 0], boxes[0], 0, 1);
    Placed(infos, boxes, 0, st0, u0, 0);
    var st1, u1 := Put(st0, 0, boxes[0]), u0[0 := u0[0] + boxes[0].volume];
    DecideNowhere(infos, u1, [0, 0], boxes[1]);
    Rejected(infos, boxes, 1, st1, u1);
    var st2 := Drop(st1, boxes[1]);
    assert st2 == Drop(Put(st, 0, box1), box2);
    assert u1 == [10, 0];
  }

  lemma HazmatWithoutSafeRoomIsRejectedFrom2(box1: Box, box2: Box, box3: Box, st: State)
    requires box1 == Box("box1", 10, NONE) && box2 == Box("box2", 10, CHEMICAL)
    requires box3 == Box("box3", 10, NONE)
    requires |st.contents| == 2 && Used(st.contents) == [10, 0]
    ensures RunFrom([RoomInfo(100, false, NONE), RoomInfo(1000, false, NONE)], [box1, box2, box3], 2, st)
         == Put(st, 0, box3)
  {
    var infos := [RoomInfo(100, false, NONE), RoomInfo(1000, false, NONE)];
    var boxes := [box1, box2, box3];
    HazmatWithoutSafeRoomIsRejectedFacts(box1, box2, box3);
    var st2, u2 := st, [10, 0];
    DecideBetweenTwo(infos, u2, [0, 0], boxes[2], 0, 1);
    Placed(infos, boxes, 2, st2, u2, 0);
    var st3, u3 := Put(st2, 0, boxes[2]), u2[0 := u2[0] + boxes[2].volume];
    assert st3 == Put(st, 0, box3);
  }

  lemma HazmatWithoutSafeRoomIsRejectedRun(box1: Box, box2: Box, box3: Box)
    requires box1 == Box("box1", 10, NONE) && box2 == Box("box2", 10, CHEMICAL)
    requires box3 == Box("box3", 10, NONE)
    ensures Allocate([RoomInfo(100, false, NONE), RoomInfo(1000, false, NONE)], [[], []], [box1, box2, box3])
         == Put(Drop(Put(State([[], []], [], []), 0, box1), box2), 0, box3)
  {
    assert Used([[], []]) == [0, 0];
    HazmatWithoutSafeRoomIsRejectedFrom0(box1, box2, box3, State([[], []], [], []));
    HazmatWithoutSafeRoomIsRejectedFrom2(box1, box2, box3, Drop(Put(State([[], []], [], []), 0, box1), box2));
  }

  /** A hazardous box with no certified room is rejected, and the rooms it did not enter are left as they are. */
  lemma HazmatWithoutSafeRoomIsRejected()
    ensures var box1, box2, box3 := Box("box1", 10, NONE), Box("box2", 10, CHEMICAL), Box("box3", 10, NONE);
      var out := Allocate([RoomInfo(100, false, NONE), RoomInfo(1000, false, NONE)], [[], []], [box1, box2, box3]);
      out.contents == [[box1, box3], []] && out.rejected == [box2]
  {
    var box1, box2, box3 := Box("box1", 10, NONE), Box("box2", 10, CHEMICAL), Box("box3", 10, NONE);
    HazmatWithoutSafeRoomIsRejectedRun(box1, box2, box3);
    PutOfTwo([], [], [], [], 0, box1);
    assert [] + [box1] == [box1];
    assert [] + [box2] == [box2];
    PutOfTwo([box1], [], [box2], [Some(0), None], 0, box3);
    assert [box1] + [box3] == [box1, box3];
  }

  // One nuclear room of 100; boxes of 10, the second of them chemical.
  lemma ChemicalBoxRejectedByNuclearRoomFacts(box1: Box, box2: Box, box3: Box)
    requires box1 == Box("box1", 10, NONE) && box2 == Box("box2", 10, CHEMICAL)
    requires box3 == Box("box3", 10, NONE)
    ensures var infos := [RoomInfo(100, false, NUCLEAR)];
      && Feasible(infos, box1) == [0]
      && Feasible(infos, box2) == []
      && Feasible(infos, box3) == [0]
  {
    var infos := [RoomInfo(100, false, NUCLEAR)];
    FeasibleOfOne(infos, box1);
    FeasibleOfOne(infos, box2);
    FeasibleOfOne(infos, box3);
  }

  lemma ChemicalBoxRejectedByNuclearRoomFrom0(box1: Box, box2: Box, box3: Box, st: State)
    requires box1 == Box("box1", 10, NONE) && box2 == Box("box2", 10, CHEMICAL)
    requires box3 == Box("box3", 10, NONE)
    requires |st.contents| == 1 && Used(st.contents) == [0]
    ensures var infos := [RoomInfo(100, false, NUCLEAR)];
      var boxes := [box1, box2, box3];
      var st' := Drop(Put(st, 0, box1), box2);
      && RunFrom(infos, boxes, 0, st) == RunFrom(infos, boxes, 2, st')
      && |st'.contents| == 1 && Used(st'.contents) == [10]
  {
    var infos := [RoomInfo(100, false, NUCLEAR)];
    var boxes := [box1, box2, box3];
    ChemicalBoxRejectedByNuclearRoomFacts(box1, box2, box3);
    var st0, u0 := st, [0];
    DecideForced(infos, u0, Reservations(infos, boxes[1..]), boxes[0], 0);
    Placed(infos, boxes, 0, st0, u0, 0);
    var st1, u1 := Put(st0, 0, boxes[0]), u0[0 := u0[0] + boxes[0].volume];
    DecideNowhere(infos, u1, Reservations(infos, boxes[2..]), boxes[1]);
    Rejected(infos, boxes, 1, st1, u1);
    var st2 := Drop(st1, boxes[1]);
    assert st2 == Drop(Put(st, 0, box1), box2);
    assert u1 == [10];
  }

  lemma ChemicalBoxRejectedByNuclearRoomFrom2(box1: Box, box2: Box, box3: Box, st: State)
    requires box1 == Box("box1", 10, NONE) && box2 == Box("box2", 10, CHEMICAL)
    requires box3 == Box("box3", 10, NONE)
    requires |st.contents| == 1 && Used(st.contents) == [10]
    ensures RunFrom([RoomInfo(100, false, NUCLEAR)], [box1, box2, box3], 2, st)
         == Put(st, 0, box3)
  {
    var infos := [RoomInfo(100, false, NUCLEAR)];
    var boxes := [box1, box2, box3];
    ChemicalBoxRejectedByNuclearRoomFacts(box1, box2, box3);
    var st2, u2 := st, [10];
    DecideForced(infos, u2, Reservations(infos, boxes[3..]), boxes[2], 0);
    Placed(infos, boxes, 2, st2, u2, 0);
    var st3, u3 := Put(st2, 0, boxes[2]), u2[0 := u2[0] + boxes[2].volume];
    assert st3 == Put(st, 0, box3);
  }

  lemma ChemicalBoxRejectedByNuclearRoomRun(box1: Box, box2: Box, box3: Box)
    requires box1 == Box("box1", 10, NONE) && box2 == Box("box2", 10, CHEMICAL)
    requires box3 == Box("box3", 10, NONE)
    ensures Allocate([RoomInfo(100, false, NUCLEAR)], [[]], [box1, box2, box3])
         == Put(Drop(Put(State([[]], [], []), 0, box1), box2), 0, box3)
  {
    assert Used([[]]) == [0];
    ChemicalBoxRejectedByNuclearRoomFrom0(box1, box2, box3, State([[]], [], []));
    ChemicalBoxRejectedByNuclearRoomFrom2(box1, box2, box3, Drop(Put(State([[]], [], []), 0, box1), box2));
  }

  /** A chemical box is rejected by a room certified for nuclear hazards only. */
  lemma ChemicalBoxRejectedByNuclearRoom()
    ensures var box1, box2, box3 := Box("box1", 10, NONE), Box("box2", 10, CHEMICAL), Box("box3", 10, NONE);
      var out := Allocate([RoomInfo(100, false, NUCLEAR)], [[]], [box1, box2, box3]);
      out.contents == [[box1, box3]] && out.rejected == [box2]
  {
    var box1, box2, box3 := Box("box1", 10, NONE), Box("box2", 10, CHEMICAL), Box("box3", 10, NONE);
    ChemicalBoxRejectedByNuclearRoomRun(box1, box2, box3);
    PutOfOne([], [], [], box1);
    assert [] + [box1] == [box1];
    assert [] + [box2] == [box2];
    PutOfOne([box1], [box2], [Some(0), None], box3);
    assert [box1] + [box3] == [box1, box3];
  }

  // A loading dock of 100, a chemical loft of 100 with stairs and a vault of 150 certified for both hazards; chemical, nuclear and combined boxes.
  lemma MixedHazardsFindTheirRoomsFacts(box1: Box, box2: Box, box3: Box, box4: Box, box5: Box, box6: Box)
    requires box1 == Box("box1", 10, CHEMICAL) && box2 == Box("box2", 60, CHEMICAL)
    requires box3 == Box("box3", 10, NUCLEAR) && box4 == Box("box4", 10, NUCLEAR | CHEMICAL)
    requires box5 == Box("box5", 50, CHEMICAL) && box6 == Box("box6", 50, CHEMICAL)
    ensures var infos := [RoomInfo(100, false, NONE), RoomInfo(100, true, CHEMICAL), RoomInfo(150, false, CHEMICAL | NUCLEAR)];
      var boxes := [box1, box2, box3, box4, box5, box6];
      && Feasible(infos, box1) == [1, 2]
      && Feasible(infos, box2) == [2]
      && Feasible(infos, box3) == [2]
      && Feasible(infos, box4) == [2]
      && Feasible(infos, box5) == [1, 2]
      && Feasible(infos, box6) == [1, 2]
      && Reservations(infos, boxes[1..]) == [0, 0, 80]
      && Reservations(infos, boxes[2..]) == [0, 0, 20]
      && Reservations(infos, boxes[3..]) == [0, 0, 10]
      && Reservations(infos, boxes[4..]) == [0, 0, 0]
      && Reservations(infos, boxes[5..]) == [0, 0, 0]
      && Reservations(infos, boxes[6..]) == [0, 0, 0]
  {
    var infos := [RoomInfo(100, false, NONE), RoomInfo(100, true, CHEMICAL), RoomInfo(150, false, CHEMICAL | NUCLEAR)];
    var boxes := [box1, box2, box3, box4, box5, box6];
    FeasibleOfThree(infos, box1);
    FeasibleOfThree(infos, box2);
    FeasibleOfThree(infos, box3);
    FeasibleOfThree(infos, box4);
    FeasibleOfThree(infos, box5);
    FeasibleOfThree(infos, box6);
    assert Reservations(infos, boxes[6..]) == [0, 0, 0];
    ReservationsFrom(infos, boxes, 5);
    assert Reservations(infos, boxes[5..]) == [0, 0, 0];
    ReservationsFrom(infos, boxes, 4);
    assert Reservations(infos, boxes[4..]) == [0, 0, 0];
    ReservationsFrom(infos, boxes, 3);
    assert Reservations(infos, boxes[3..]) == [0, 0, 10];
    ReservationsFrom(infos, boxes, 2);
    assert Reservations(infos, boxes[2..]) == [0, 0, 20];
    ReservationsFrom(infos, boxes, 1);
    assert Reservations(infos, boxes[1..]) == [0, 0, 80];
  }

  lemma MixedHazardsFindTheirRoomsFrom0(box1: Box, box2: Box, box3: Box, box4: Box, box5: Box, box6: Box, st: State)
    requires box1 == Box("box1", 10, CHEMICAL) && box2 == Box("box2", 60, CHEMICAL)
    requires box3 == Box("box3", 10, NUCLEAR) && box4 == Box("box4", 10, NUCLEAR | CHEMICAL)
    requires box5 == Box("box5", 50, CHEMICAL) && box6 == Box("box6", 50, CHEMICAL)
    requires |st.contents| == 3 && Used(st.contents) == [0, 0, 0]
    ensures var infos := [RoomInfo(100, false, NONE), RoomInfo(100, true, CHEMICAL), RoomInfo(150, false, CHEMICAL | NUCLEAR)];
      var boxes := [box1, box2, box3, box4, box5, box6];
      var st' := Put(Put(st, 1, box1), 2, box2);
      && RunFrom(infos, boxes, 0, st) == RunFrom(infos, boxes, 2, st')
      && |st'.contents| == 3 && Used(st'.contents) == [0, 10, 60]
  {
    var infos := [RoomInfo(100, false, NONE), RoomInfo(100, true, CHEMICAL), RoomInfo(150, false, CHEMICAL | NUCLEAR)];
    var boxes := [box1, box2, box3, box4, box5, box6];
    MixedHazardsFindTheirRoomsFacts(box1, box2, box3, box4, box5, box6);
    var st0, u0 := st, [0, 0, 0];
    DecideBetweenTwo(infos, u0, [0, 0, 80], boxes[0], 1, 2);
    Placed(infos, boxes, 0, st0, u0, 1);
    var st1, u1 := Put(st0, 1, boxes[0]), u0[1 := u0[1] + boxes[0].volume];
    DecideForced(infos, u1, [0, 0, 20], boxes[1], 2);
    Placed(infos, boxes, 1, st1, u1, 2);
    var st2, u2 := Put(st1, 2, boxes[1]), u1[2 := u1[2] + boxes[1].volume];
    assert st2 == Put(Put(st, 1, box1), 2, box2);
    assert u2 == [0, 10, 60];
  }

  lemma MixedHazardsFindTheirRoomsFrom2(box1: Box, box2: Box, box3: Box, box4: Box, box5: Box, box6: Box, st: State)
    requires box1 == Box("box1", 10, CHEMICAL) && box2 == Box("box2", 60, CHEMICAL)
    requires box3 == Box("box3", 10, NUCLEAR) && box4 == Box("box4", 10, NUCLEAR | CHEMICAL)
    requires box5 == Box("box5", 50, CHEMICAL) && box6 == Box("box6", 50, CHEMICAL)
    requires |st.contents| == 3 && Used(st.contents) == [0, 10, 60]
    ensures var infos := [RoomInfo(100, false, NONE), RoomInfo(100, true, CHEMICAL), RoomInfo(150, false, CHEMICAL | NUCLEAR)];
      var boxes := [box1, box2, box3, box4, box5, box6];
      var st' := Put(Put(st, 2, box3), 2, box4);
      && RunFrom(infos, boxes, 2, st) == RunFrom(infos, boxes, 4, st')
      && |st'.contents| == 3 && Used(st'.contents) == [0, 10, 80]
  {
    var infos := [RoomInfo(100, false, NONE), RoomInfo(100, true, CHEMICAL), RoomInfo(150, false, CHEMICAL | NUCLEAR)];
    var boxes := [box1, box2, box3, box4, box5, box6];
    MixedHazardsFindTheirRoomsFacts(box1, box2, box3, box4, box5, box6);
    var st2, u2 := st, [0, 10, 60];
    DecideForced(infos, u2, [0, 0, 10], boxes[2], 2);
    Placed(infos, boxes, 2, st2, u2, 2);
    var st3, u3 := Put(st2, 2, boxes[2]), u2[2 := u2[2] + boxes[2].volume];
    DecideForced(infos, u3, [0, 0, 0], boxes[3], 2);
    Placed(infos, boxes, 3, st3, u3, 2);
    var st4, u4 := Put(st3, 2, boxes[3]), u3[2 := u3[2] + boxes[3].volume];
    assert st4 == Put(Put(st, 2, box3), 2, box4);
    assert u4 == [0, 10, 80];
  }

  lemma MixedHazardsFindTheirRoomsFrom4(box1: Box, box2: Box, box3: Box, box4: Box, box5: Box, box6: Box, st: State)
    requires box1 == Box("box1", 10, CHEMICAL) && box2 == Box("box2", 60, CHEMICAL)
    requires box3 == Box("box3", 10, NUCLEAR) && box4 == Box("box4", 10, NUCLEAR | CHEMICAL)
    requires box5 == Box("box5", 50, CHEMICAL) && box6 == Box("box6", 50, CHEMICAL)
    requires |st.contents| == 3 && Used(st.contents) == [0, 10, 80]
    ensures RunFrom([RoomInfo(100, false, NONE), RoomInfo(100, true, CHEMICAL), RoomInfo(150, false, CHEMICAL | NUCLEAR)], [box1, box2, box3, box4, box5, box6], 4, st)
         == Put(Put(st, 1, box5), 2, box6)
  {
    var infos := [RoomInfo(100, false, NONE), RoomInfo(100, true, CHEMICAL), RoomInfo(150, false, CHEMICAL | NUCLEAR)];
    var boxes := [box1, box2, box3, box4, box5, box6];
    MixedHazardsFindTheirRoomsFacts(box1, box2, box3, box4, box5, box6);
    var st4, u4 := st, [0, 10, 80];
    DecideBetweenTwo(infos, u4, [0, 0, 0], boxes[4], 1, 2);
    Placed(infos, boxes, 4, st4, u4, 1);
    var st5, u5 := Put(st4, 1, boxes[4]), u4[1 := u4[1] + boxes[4].volume];
    DecideBetweenTwo(infos, u5, [0, 0, 0], boxes[5], 1, 2);
    Placed(infos, boxes, 5, st5, u5, 2);
    var st6, u6 := Put(st5, 2, boxes[5]), u5[2 := u5[2] + boxes[5].volume];
    assert st6 == Put(Put(st, 1, box5), 2, box6);
  }

  lemma MixedHazardsFindTheirRoomsRun(box1: Box, box2: Box, box3: Box, box4: Box, box5: Box, box6: Box)
    requires box1 == Box("box1", 10, CHEMICAL) && box2 == Box("box2", 60, CHEMICAL)
    requires box3 == Box("box3", 10, NUCLEAR) && box4 == Box("box4", 10, NUCLEAR | CHEMICAL)
    requires box5 == Box("box5", 50, CHEMICAL) && box6 == Box("box6", 50, CHEMICAL)
    ensures Allocate([RoomInfo(100, false, NONE), RoomInfo(100, true, CHEMICAL), RoomInfo(150, false, CHEMICAL | NUCLEAR)], [[], [], []], [box1, box2, box3, box4, box5, box6])
         == Put(Put(Put(Put(Put(Put(State([[], [], []], [], []), 1, box1), 2, box2), 2, box3), 2, box4), 1, box5), 2, box6)
  {
    assert Used([[], [], []]) == [0, 0, 0];
    MixedHazardsFindTheirRoomsFrom0(box1, box2, box3, box4, box5, box6, State([[], [], []], [], []));
    MixedHazardsFindTheirRoomsFrom2(box1, box2, box3, box4, box5, box6, Put(Put(State([[], [], []], [], []), 1, box1), 2, box2));
    MixedHazardsFindTheirRoomsFrom4(box1, box2, box3, box4, box5, box6, Put(Put(Put(Put(State([[], [], []], [], []), 1, box1), 2, box2), 2, box3), 2, box4));
  }

  /** Boxes of different hazards go to rooms that contain them while the stairs rule and the capacities still hold; the loading dock stays empty. */
  lemma MixedHazardsFindTheirRooms()
    ensures var box1, box2, box3 := Box("box1", 10, CHEMICAL), Box("box2", 60, CHEMICAL), Box("box3", 10, NUCLEAR);
      var box4, box5, box6 := Box("box4", 10, NUCLEAR | CHEMICAL), Box("box5", 50, CHEMICAL), Box("box6", 50, CHEMICAL);
      var out := Allocate([RoomInfo(100, false, NONE), RoomInfo(100, true, CHEMICAL), RoomInfo(150, false, CHEMICAL | NUCLEAR)], [[], [], []], [box1, box2, box3, box4, box5, box6]);
      out.contents == [[], [box1, box5], [box2, box3, box4, box6]] && out.rejected == []
  {
    var box1, box2, box3 := Box("box1", 10, CHEMICAL), Box("box2", 60, CHEMICAL), Box("box3", 10, NUCLEAR);
    var box4, box5, box6 := Box("box4", 10, NUCLEAR | CHEMICAL), Box("box5", 50, CHEMICAL), Box("box6", 50, CHEMICAL);
    MixedHazardsFindTheirRoomsRun(box1, box2, box3, box4, box5, box6);
    PutOfThree([], [], [], [], [], 1, box1);
    assert [] + [box1] == [box1];
    PutOfThree([], [box1], [], [], [Some(1)], 2, box2);
    assert [] + [box2] == [box2];
    PutOfThree([], [box1], [box2], [], [Some(1), Some(2)], 2, box3);
    assert [box2] + [box3] == [box2, box3];
    PutOfThree([], [box1], [box2, box3], [], [Some(1), Some(2), Some(2)], 2, box4);
    assert [box2, box3] + [box4] == [box2, box3, box4];
    PutOfThree([], [box1], [box2, box3, box4], [], [Some(1), Some(2), Some(2), Some(2)], 1, box5);
    assert [box1] + [box5] == [box1, box5];
    PutOfThree([], [box1, box5], [box2, box3, box4], [], [Some(1), Some(2), Some(2), Some(2), Some(1)], 2, box6);
    assert [box2, box3, box4] + [box6] == [box2, box3, box4, box6];
  }

  // A vault of 150 certified for both hazards and a main room of 1000; four ordinary boxes and then a chemical box, all of 60.
  lemma FlexibleBoxesLeaveRoomForConstrainedOnesFacts(box1: Box, box2: Box, box3: Box, box4: Box, box5: Box)
    requires box1 == Box("box1", 60, NONE) && box2 == Box("box2", 60, NONE)
    requires box3 == Box("box3", 60, NONE) && box4 == Box("box4", 60, NONE)
    requires box5 == Box("box5", 60, CHEMICAL)
    ensures var infos := [RoomInfo(150, false, CHEMICAL | NUCLEAR), RoomInfo(1000, false, NONE)];
      var boxes := [box1, box2, box3, box4, box5];
      && Feasible(infos, box1) == [0, 1]
      && Feasible(infos, box2) == [0, 1]
      && Feasible(infos, box3) == [0, 1]
      && Feasible(infos, box4) == [0, 1]
      && Feasible(infos, box5) == [0]
      && Reservations(infos, boxes[1..]) == [60, 0]
      && Reservations(infos, boxes[2..]) == [60, 0]
      && Reservations(infos, boxes[3..]) == [60, 0]
      && Reservations(infos, boxes[4..]) == [60, 0]
      && Reservations(infos, boxes[5..]) == [0, 0]
  {
    var infos := [RoomInfo(150, false, CHEMICAL | NUCLEAR), RoomInfo(1000, false, NONE)];
    var boxes := [box1, box2, box3, box4, box5];
    FeasibleOfTwo(infos, box1);
    FeasibleOfTwo(infos, box2);
    FeasibleOfTwo(infos, box3);
    FeasibleOfTwo(infos, box4);
    FeasibleOfTwo(infos, box5);
    assert Reservations(infos, boxes[5..]) == [0, 0];
    ReservationsFrom(infos, boxes, 4);
    assert Reservations(infos, boxes[4..]) == [60, 0];
    ReservationsFrom(infos, boxes, 3);
    assert Reservations(infos, boxes[3..]) == [60, 0];
    ReservationsFrom(infos, boxes, 2);
    assert Reservations(infos, boxes[2..]) == [60, 0];
    ReservationsFrom(infos, boxes, 1);
    assert Reservations(infos, boxes[1..]) == [60, 0];
  }

  lemma FlexibleBoxesLeaveRoomForConstrainedOnesFrom0(box1: Box, box2: Box, box3: Box, box4: Box, box5: Box, st: State)
    requires box1 == Box("box1", 60, NONE) && box2 == Box("box2", 60, NONE)
    requires box3 == Box("box3", 60, NONE) && box4 == Box("box4", 60, NONE)
    requires box5 == Box("box5", 60, CHEMICAL)
    requires |st.contents| == 2 && Used(st.contents) == [0, 0]
    ensures var infos := [RoomInfo(150, false, CHEMICAL | NUCLEAR), RoomInfo(1000, false, NONE)];
      var boxes := [box1, box2, box3, box4, box5];
      var st' := Put(Put(st, 0, box1), 1, box2);
      && RunFrom(infos, boxes, 0, st) == RunFrom(infos, boxes, 2, st')
      && |st'.contents| == 2 && Used(st'.contents) == [60, 60]
  {
    var infos := [RoomInfo(150, false, CHEMICAL | NUCLEAR), RoomInfo(1000, false, NONE)];
    var boxes := [box1, box2, box3, box4, box5];
    FlexibleBoxesLeaveRoomForConstrainedOnesFacts(box1, box2, box3, box4, box5);
    var st0, u0 := st, [0, 0];
    DecideBetweenTwo(infos, u0, [60, 0], boxes[0], 0, 1);
    Placed(infos, boxes, 0, st0, u0, 0);
    var st1, u1 := Put(st0, 0, boxes[0]), u0[0 := u0[0] + boxes[0].volume];
    DecideBetweenTwo(infos, u1, [60, 0], boxes[1], 0, 1);
    Placed(infos, boxes, 1, st1, u1, 1);
    var st2, u2 := Put(st1, 1, boxes[1]), u1[1 := u1[1] + boxes[1].volume];
    assert st2 == Put(Put(st, 0, box1), 1, box2);
    assert u2 == [60, 60];
  }

  lemma FlexibleBoxesLeaveRoomForConstrainedOnesFrom2(box1: Box, box2: Box, box3: Box, box4: Box, box5: Box, st: State)
    requires box1 == Box("box1", 60, NONE) && box2 == Box("box2", 60, NONE)
    requires box3 == Box("box3", 60, NONE) && box4 == Box("box4", 60, NONE)
    requires box5 == Box("box5", 60, CHEMICAL)
    requires |st.contents| == 2 && Used(st.contents) == [60, 60]
    ensures var infos := [RoomInfo(150, false, CHEMICAL | NUCLEAR), RoomInfo(1000, false, NONE)];
      var boxes := [box1, box2, box3, box4, box5];
      var st' := Put(Put(st, 1, box3), 1, box4);
      && RunFrom(infos, boxes, 2, st) == RunFrom(infos, boxes, 4, st')
      && |st'.contents| == 2 && Used(st'.contents) == [60, 180]
  {
    var infos := [RoomInfo(150, false, CHEMICAL | NUCLEAR), RoomInfo(1000, false, NONE)];
    var boxes := [box1, box2, box3, box4, box5];
    FlexibleBoxesLeaveRoomForConstrainedOnesFacts(box1, box2, box3, box4, box5);
    var st2, u2 := st, [60, 60];
    DecideBetweenTwo(infos, u2, [60, 0], boxes[2], 0, 1);
    Placed(infos, boxes, 2, st2, u2, 1);
    var st3, u3 := Put(st2, 1, boxes[2]), u2[1 := u2[1] + boxes[2].volume];
    DecideBetweenTwo(infos, u3, [60, 0], boxes[3], 0, 1);
    Placed(infos, boxes, 3, st3, u3, 1);
    var st4, u4 := Put(st3, 1, boxes[3]), u3[1 := u3[1] + boxes[3].volume];
    assert st4 == Put(Put(st, 1, box3), 1, box4);
    assert u4 == [60, 180];
  }

  lemma FlexibleBoxesLeaveRoomForConstrainedOnesFrom4(box1: Box, box2: Box, box3: Box, box4: Box, box5: Box, st: State)
    requires box1 == Box("box1", 60, NONE) && box2 == Box("box2", 60, NONE)
    requires box3 == Box("box3", 60, NONE) && box4 == Box("box4", 60, NONE)
    requires box5 == Box("box5", 60, CHEMICAL)
    requires |st.contents| == 2 && Used(st.contents) == [60, 180]
    ensures RunFrom([RoomInfo(150, false, CHEMICAL | NUCLEAR), RoomInfo(1000, false, NONE)], [box1, box2, box3, box4, box5], 4, st)
         == Put(st, 0, box5)
  {
    var infos := [RoomInfo(150, false, CHEMICAL | NUCLEAR), RoomInfo(1000, false, NONE)];
    var boxes := [box1, box2, box3, box4, box5];
    FlexibleBoxesLeaveRoomForConstrainedOnesFacts(box1, box2, box3, box4, box5);
    var st4, u4 := st, [60, 180];
    DecideForced(infos, u4, [0, 0], boxes[4], 0);
    Placed(infos, boxes, 4, st4, u4, 0);
    var st5, u5 := Put(st4, 0, boxes[4]), u4[0 := u4[0] + boxes[4].volume];
    assert st5 == Put(st, 0, box5);
  }

  lemma FlexibleBoxesLeaveRoomForConstrainedOnesRun(box1: Box, box2: Box, box3: Box, box4: Box, box5: Box)
    requires box1 == Box("box1", 60, NONE) && box2 == Box("box2", 60, NONE)
    requires box3 == Box("box3", 60, NONE) && box4 == Box("box4", 60, NONE)
    requires box5 == Box("box5", 60, CHEMICAL)
    ensures Allocate([RoomInfo(150, false, CHEMICAL | NUCLEAR), RoomInfo(1000, false, NONE)], [[], []], [box1, box2, box3, box4, box5])
         == Put(Put(Put(Put(Put(State([[], []], [], []), 0, box1), 1, box2), 1, box3), 1, box4), 0, box5)
  {
    assert Used([[], []]) == [0, 0];
    FlexibleBoxesLeaveRoomForConstrainedOnesFrom0(box1, box2, box3, box4, box5, State([[], []], [], []));
    FlexibleBoxesLeaveRoomForConstrainedOnesFrom2(box1, box2, box3, box4, box5, Put(Put(State([[], []], [], []), 0, box1), 1, box2));
    FlexibleBoxesLeaveRoomForConstrainedOnesFrom4(box1, box2, box3, box4, box5, Put(Put(Put(Put(State([[], []], [], []), 0, box1), 1, box2), 1, box3), 1, box4));
  }

  /** Ordinary boxes are kept out of the vault once they would leave too little room for the later chemical box that can only go there. */
  lemma FlexibleBoxesLeaveRoomForConstrainedOnes()
    ensures var box1, box2, box3 := Box("box1", 60, NONE), Box("box2", 60, NONE), Box("box3", 60, NONE);
      var box4, box5 := Box("box4", 60, NONE), Box("box5", 60, CHEMICAL);
      var out := Allocate([RoomInfo(150, false, CHEMICAL | NUCLEAR), RoomInfo(1000, false, NONE)], [[], []], [box1, box2, box3, box4, box5]);
      out.contents == [[box1, box5], [box2, box3, box4]] && out.rejected == []
  {
    var box1, box2, box3 := Box("box1", 60, NONE), Box("box2", 60, NONE), Box("box3", 60, NONE);
    var box4, box5 := Box("box4", 60, NONE), Box("box5", 60, CHEMICAL);
    FlexibleBoxesLeaveRoomForConstrainedOnesRun(box1, box2, box3, box4, box5);
    PutOfTwo([], [], [], [], 0, box1);
    assert [] + [box1] == [box1];
    PutOfTwo([box1], [], [], [Some(0)], 1, box2);
    assert [] + [box2] == [box2];
    PutOfTwo([box1], [box2], [], [Some(0), Some(1)], 1, box3);
    assert [box2] + [box3] == [box2, box3];
    PutOfTwo([box1], [box2, box3], [], [Some(0), Some(1), Some(1)], 1, box4);
    assert [box2, box3] + [box4] == [box2, box3, box4];
    PutOfTwo([box1], [box2, box3, box4], [], [Some(0), Some(1), Some(1), Some(1)], 0, box5);
    assert [box1] + [box5] == [box1, box5];
  }

  // The same rooms; the fourth ordinary box is of 30.
  lemma ReservedBoundIsInclusiveFacts(box1: Box, box2: Box, box3: Box, box4: Box, box5: Box)
    requires box1 == Box("box1", 60, NONE) && box2 == Box("box2", 60, NONE)
    requires box3 == Box("box3", 60, NONE) && box4 == Box("box4", 30, NONE)
    requires box5 == Box("box5", 60, CHEMICAL)
    ensures var infos := [RoomInfo(150, false, CHEMICAL | NUCLEAR), RoomInfo(1000, false, NONE)];
      var boxes := [box1, box2, box3, box4, box5];
      && Feasible(infos, box1) == [0, 1]
      && Feasible(infos, box2) == [0, 1]
      && Feasible(infos, box3) == [0, 1]
      && Feasible(infos, box4) == [0, 1]
      && Feasible(infos, box5) == [0]
      && Reservations(infos, boxes[1..]) == [60, 0]
      && Reservations(infos, boxes[2..]) == [60, 0]
      && Reservations(infos, boxes[3..]) == [60, 0]
      && Reservations(infos, boxes[4..]) == [60, 0]
      && Reservations(infos, boxes[5..]) == [0, 0]
  {
    var infos := [RoomInfo(150, false, CHEMICAL | NUCLEAR), RoomInfo(1000, false, NONE)];
    var boxes := [box1, box2, box3, box4, box5];
    FeasibleOfTwo(infos, box1);
    FeasibleOfTwo(infos, box2);
    FeasibleOfTwo(infos, box3);
    FeasibleOfTwo(infos, box4);
    FeasibleOfTwo(infos, box5);
    assert Reservations(infos, boxes[5..]) == [0, 0];
    ReservationsFrom(infos, boxes, 4);
    assert Reservations(infos, boxes[4..]) == [60, 0];
    ReservationsFrom(infos, boxes, 3);
    assert Reservations(infos, boxes[3..]) == [60, 0];
    ReservationsFrom(infos, boxes, 2);
    assert Reservations(infos, boxes[2..]) == [60, 0];
    ReservationsFrom(infos, boxes, 1);
    assert Reservations(infos, boxes[1..]) == [60, 0];
  }

  lemma ReservedBoundIsInclusiveFrom0(box1: Box, box2: Box, box3: Box, box4: Box, box5: Box, st: State)
    requires box1 == Box("box1", 60, NONE) && box2 == Box("box2", 60, NONE)
    requires box3 == Box("box3", 60, NONE) && box4 == Box("box4", 30, NONE)
    requires box5 == Box("box5", 60, CHEMICAL)
    requires |st.contents| == 2 && Used(st.contents) == [0, 0]
    ensures var infos := [RoomInfo(150, false, CHEMICAL | NUCLEAR), RoomInfo(1000, false, NONE)];
      var boxes := [box1, box2, box3, box4, box5];
      var st' := Put(Put(st, 0, box1), 1, box2);
      && RunFrom(infos, boxes, 0, st) == RunFrom(infos, boxes, 2, st')
      && |st'.contents| == 2 && Used(st'.contents) == [60, 60]
  {
    var infos := [RoomInfo(150, false, CHEMICAL | NUCLEAR), RoomInfo(1000, false, NONE)];
    var boxes := [box1, box2, box3, box4, box5];
    ReservedBoundIsInclusiveFacts(box1, box2, box3, box4, box5);
    var st0, u0 := st, [0, 0];
    DecideBetweenTwo(infos, u0, [60, 0], boxes[0], 0, 1);
    Placed(infos, boxes, 0, st0, u0, 0);
    var st1, u1 := Put(st0, 0, boxes[0]), u0[0 := u0[0] + boxes[0].volume];
    DecideBetweenTwo(infos, u1, [60, 0], boxes[1], 0, 1);
    Placed(infos, boxes, 1, st1, u1, 1);
    var st2, u2 := Put(st1, 1, boxes[1]), u1[1 := u1[1] + boxes[1].volume];
    assert st2 == Put(Put(st, 0, box1), 1, box2);
    assert u2 == [60, 60];
  }

  lemma ReservedBoundIsInclusiveFrom2(box1: Box, box2: Box, box3: Box, box4: Box, box5: Box, st: State)
    requires box1 == Box("box1", 60, NONE) && box2 == Box("box2", 60, NONE)
    requires box3 == Box("box3", 60, NONE) && box4 == Box("box4", 30, NONE)
    requires box5 == Box("box5", 60, CHEMICAL)
    requires |st.contents| == 2 && Used(st.contents) == [60, 60]
    ensures var infos := [RoomInfo(150, false, CHEMICAL | NUCLEAR), RoomInfo(1000, false, NONE)];
      var boxes := [box1, box2, box3, box4, box5];
      var st' := Put(Put(st, 1, box3), 0, box4);
      && RunFrom(infos, boxes, 2, st) == RunFrom(infos, boxes, 4, st')
      && |st'.contents| == 2 && Used(st'.contents) == [90, 120]
  {
    var infos := [RoomInfo(150, false, CHEMICAL | NUCLEAR), RoomInfo(1000, false, NONE)];
    var boxes := [box1, box2, box3, box4, box5];
    ReservedBoundIsInclusiveFacts(box1, box2, box3, box4, box5);
    var st2, u2 := st, [60, 60];
    DecideBetweenTwo(infos, u2, [60, 0], boxes[2], 0, 1);
    Placed(infos, boxes, 2, st2, u2, 1);
    var st3, u3 := Put(st2, 1, boxes[2]), u2[1 := u2[1] + boxes[2].volume];
    DecideBetweenTwo(infos, u3, [60, 0], boxes[3], 0, 1);
    Placed(infos, boxes, 3, st3, u3, 0);
    var st4, u4 := Put(st3, 0, boxes[3]), u3[0 := u3[0] + boxes[3].volume];
    assert st4 == Put(Put(st, 1, box3), 0, box4);
    assert u4 == [90, 120];
  }

  lemma ReservedBoundIsInclusiveFrom4(box1: Box, box2: Box, box3: Box, box4: Box, box5: Box, st: State)
    requires box1 == Box("box1", 60, NONE) && box2 == Box("box2", 60, NONE)
    requires box3 == Box("box3", 60, NONE) && box4 == Box("box4", 30, NONE)
    requires box5 == Box("box5", 60, CHEMICAL)
    requires |st.contents| == 2 && Used(st.contents) == [90, 120]
    ensures RunFrom([RoomInfo(150, false, CHEMICAL | NUCLEAR), RoomInfo(1000, false, NONE)], [box1, box2, box3, box4, box5], 4, st)
         == Put(st, 0, box5)
  {
    var infos := [RoomInfo(150, false, CHEMICAL | NUCLEAR), RoomInfo(1000, false, NONE)];
    var boxes := [box1, box2, box3, box4, box5];
    ReservedBoundIsInclusiveFacts(box1, box2, box3, box4, box5);
    var st4, u4 := st, [90, 120];
    DecideForced(infos, u4, [0, 0], boxes[4], 0);
    Placed(infos, boxes, 4, st4, u4, 0);
    var st5, u5 := Put(st4, 0, boxes[4]), u4[0 := u4[0] + boxes[4].volume];
    assert st5 == Put(st, 0, box5);
  }

  lemma ReservedBoundIsInclusiveRun(box1: Box, box2: Box, box3: Box, box4: Box, box5: Box)
    requires box1 == Box("box1", 60, NONE) && box2 == Box("box2", 60, NONE)
    requires box3 == Box("box3", 60, NONE) && box4 == Box("box4", 30, NONE)
    requires box5 == Box("box5", 60, CHEMICAL)
    ensures Allocate([RoomInfo(150, false, CHEMICAL | NUCLEAR), RoomInfo(1000, false, NONE)], [[], []], [box1, box2, box3, box4, box5])
         == Put(Put(Put(Put(Put(State([[], []], [], []), 0, box1), 1, box2), 1, box3), 0, box4), 0, box5)
  {
    assert Used([[], []]) == [0, 0];
    ReservedBoundIsInclusiveFrom0(box1, box2, box3, box4, box5, State([[], []], [], []));
    ReservedBoundIsInclusiveFrom2(box1, box2, box3, box4, box5, Put(Put(State([[], []], [], []), 0, box1), 1, box2));
    ReservedBoundIsInclusiveFrom4(box1, box2, box3, box4, box5, Put(Put(Put(Put(State([[], []], [], []), 0, box1), 1, box2), 1, box3), 0, box4));
  }

  /** The reserved bound is inclusive: a box that leaves exactly the reserved volume free still goes into the vault, and the constrained box after it fits. */
  lemma ReservedBoundIsInclusive()
    ensures var box1, box2, box3 := Box("box1", 60, NONE), Box("box2", 60, NONE), Box("box3", 60, NONE);
      var box4, box5 := Box("box4", 30, NONE), Box("box5", 60, CHEMICAL);
      var out := Allocate([RoomInfo(150, false, CHEMICAL | NUCLEAR), RoomInfo(1000, false, NONE)], [[], []], [box1, box2, box3, box4, box5]);
      out.contents == [[box1, box4, box5], [box2, box3]] && out.rejected == []
  {
    var box1, box2, box3 := Box("box1", 60, NONE), Box("box2", 60, NONE), Box("box3", 60, NONE);
    var box4, box5 := Box("box4", 30, NONE), Box("box5", 60, CHEMICAL);
    ReservedBoundIsInclusiveRun(box1, box2, box3, box4, box5);
    PutOfTwo([], [], [], [], 0, box1);
    assert [] + [box1] == [box1];
    PutOfTwo([box1], [], [], [Some(0)], 1, box2);
    assert [] + [box2] == [box2];
    PutOfTwo([box1], [box2], [], [Some(0), Some(1)], 1, box3);
    assert [box2] + [box3] == [box2, box3];
    PutOfTwo([box1], [box2, box3], [], [Some(0), Some(1), Some(1)], 0, box4);
    assert [box1] + [box4] == [box1, box4];
    PutOfTwo([box1, box4], [box2, box3], [], [Some(0), Some(1), Some(1), Some(0)], 0, box5);
    assert [box1, box4] + [box5] == [box1, box4, box5];
  }

}
