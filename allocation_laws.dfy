/**
 * What the one-pass allocator guarantees: how a single decision is made, that
 * every box ends in exactly one room or in the rejects in its original order,
 * that only legal boxes enter a room, that no room overflows, and that a box
 * with a single legal room is never starved by flexible boxes.
 */
module AllocationLaws {
  import opened Boxes
  import opened Rooms
  import opened Allocation

  // ---------------------------------------------------------------------------
  // Single decisions

  /** A box is constrained to room `i` exactly when `i` is its one and only legal room. */
  lemma ForcedIffOnlyLegalRoom(infos: seq<RoomInfo>, b: Box, i: nat)
    ensures Forced(infos, b) == Some(i) <==>
              && i < |infos| && Legal(b, infos[i])
              && forall j :: 0 <= j < |infos| && j != i ==> !Legal(b, infos[j])
  {
    FeasibleBelowExact(infos, b, |infos|);
    if i < |infos| && Legal(b, infos[i]) && forall j :: 0 <= j < |infos| && j != i ==> !Legal(b, infos[j]) {
      FeasibleOfOnlyLegalRoom(infos, b, i, |infos|);
    }
  }

  /** When `i` is the only legal room, the legal rooms below `n` are `i` alone, once `n` passes it. */
  lemma {:induction false} FeasibleOfOnlyLegalRoom(infos: seq<RoomInfo>, b: Box, i: nat, n: nat)
    requires i < |infos| && n <= |infos| && Legal(b, infos[i])
    requires forall j :: 0 <= j < |infos| && j != i ==> !Legal(b, infos[j])
    ensures FeasibleBelow(infos, b, n) == if i < n then [i] else []
  {
    if n > 0 {
      FeasibleOfOnlyLegalRoom(infos, b, i, n - 1);
    }
  }

  /** The reservation vector holds, for each room, the total volume of the later boxes constrained to it. */
  lemma {:induction false} ReservationsAreSums(infos: seq<RoomInfo>, later: seq<Box>, i: nat)
    requires i < |infos|
    ensures Reservations(infos, later)[i] == ReservedFor(infos, later, i)
    decreases |later|
  {
    if later != [] {
      ReservationsAreSums(infos, later[1..], i);
    }
  }

  /** The reservations of a non-empty batch: those of its tail, plus its head's volume in the head's own room. */
  lemma ReservationsCons(infos: seq<RoomInfo>, b: Box, later: seq<Box>)
    ensures Reservations(infos, [b] + later)
            == match Forced(infos, b)
               case None => Reservations(infos, later)
               case Some(i) => Reservations(infos, later)[i := Reservations(infos, later)[i] + b.volume]
  {
    assert ([b] + later)[1..] == later;
  }

  /** Boxes of non-negative volume. */
  ghost predicate NonNegative(bs: seq<Box>) {
    forall j :: 0 <= j < |bs| ==> bs[j].volume >= 0
  }

  /** With non-negative volumes no reservation is negative. */
  lemma {:induction false} ReservationsNonNegative(infos: seq<RoomInfo>, later: seq<Box>)
    requires NonNegative(later)
    ensures forall i :: 0 <= i < |infos| ==> Reservations(infos, later)[i] >= 0
    decreases |later|
  {
    if later != [] {
      ReservationsNonNegative(infos, later[1..]);
    }
  }

  /** A placement is always into an existing room the box is legal for. */
  lemma DecidePlacesLegally(infos: seq<RoomInfo>, used: seq<int>, reserved: seq<int>, b: Box)
    requires |used| == |infos| && |reserved| == |infos|
    ensures var d := Decide(infos, used, reserved, b);
            d.Some? ==> d.value < |infos| && Legal(b, infos[d.value])
  {
    var f := Feasible(infos, b);
    FeasibleBelowExact(infos, b, |infos|);
    if |f| >= 2 {
      var p := FirstFittingFrom(infos, used, reserved, b, f, 0);
      assert p.Some? ==> Legal(b, infos[f[p.value]]);
    }
  }

  /** A constrained box goes to its one legal room exactly when raw capacity allows; reservations play no part. */
  lemma DecideConstrained(infos: seq<RoomInfo>, used: seq<int>, reserved: seq<int>, b: Box)
    requires |used| == |infos| && |reserved| == |infos|
    requires Forced(infos, b).Some?
    ensures Decide(infos, used, reserved, b)
            == if FitsRaw(infos, used, Forced(infos, b).value, b.volume) then Forced(infos, b) else None
  {
  }

  /** A box with no or several legal rooms is rejected exactly when no legal room passes the reserved bound. */
  lemma DecideUnconstrainedRejects(infos: seq<RoomInfo>, used: seq<int>, reserved: seq<int>, b: Box)
    requires |used| == |infos| && |reserved| == |infos|
    requires Forced(infos, b).None?
    ensures Decide(infos, used, reserved, b).None? <==>
              forall i :: 0 <= i < |infos| && Legal(b, infos[i]) ==>
                            !FitsReserved(infos, used, reserved, i, b.volume)
  {
    var f := Feasible(infos, b);
    FeasibleBelowExact(infos, b, |infos|);
    if |f| >= 2 && FirstFittingFrom(infos, used, reserved, b, f, 0).None? {
      forall i | 0 <= i < |infos| && Legal(b, infos[i])
        ensures !FitsReserved(infos, used, reserved, i, b.volume)
      {
        assert i in f;
        var u :| 0 <= u < |f| && f[u] == i;
      }
    }
  }

  /** A placed box that is not constrained goes to the first legal room that passes the reserved bound. */
  lemma DecideUnconstrainedFirstFit(infos: seq<RoomInfo>, used: seq<int>, reserved: seq<int>, b: Box)
    requires |used| == |infos| && |reserved| == |infos|
    requires Forced(infos, b).None?
    ensures var d := Decide(infos, used, reserved, b);
      d.Some? ==>
        && FitsReserved(infos, used, reserved, d.value, b.volume)
        && forall j :: 0 <= j < d.value && Legal(b, infos[j]) ==>
                         !FitsReserved(infos, used, reserved, j, b.volume)
  {
    var f := Feasible(infos, b);
    FeasibleBelowExact(infos, b, |infos|);
    if |f| >= 2 && FirstFittingFrom(infos, used, reserved, b, f, 0).Some? {
      var p := FirstFittingFrom(infos, used, reserved, b, f, 0).value;
      forall j | 0 <= j < f[p] && Legal(b, infos[j])
        ensures !FitsReserved(infos, used, reserved, j, b.volume)
      {
        assert j in f;
        var u :| 0 <= u < |f| && f[u] == j;
        assert u < p;
      }
    }
  }

  /** With non-negative reservations every placement respects raw capacity. */
  lemma DecideRespectsCapacity(infos: seq<RoomInfo>, used: seq<int>, reserved: seq<int>, b: Box)
    requires |used| == |infos| && |reserved| == |infos|
    requires forall i :: 0 <= i < |reserved| ==> reserved[i] >= 0
    ensures var d := Decide(infos, used, reserved, b);
            d.Some? ==> FitsRaw(infos, used, d.value, b.volume)
  {
    if Forced(infos, b).None? {
      DecideUnconstrainedFirstFit(infos, used, reserved, b);
    }
  }

  // ---------------------------------------------------------------------------
  // Sums and selections

  lemma SumSnoc(bs: seq<Box>, b: Box)
    ensures Sum(bs + [b]) == Sum(bs) + b.volume
  {
    assert (bs + [b])[..|bs|] == bs;
  }

  lemma SelectSnoc(bs: seq<Box>, ds: seq<Choice>, b: Box, d: Choice, x: Choice)
    requires |bs| == |ds|
    ensures Select(bs + [b], ds + [d], x) == Select(bs, ds, x) + (if d == x then [b] else [])
  {
    assert (bs + [b])[..|bs|] == bs;
    assert (ds + [d])[..|ds|] == ds;
  }

  lemma GainedSnoc(bs: seq<Box>, ds: seq<Choice>, b: Box, d: Choice, x: Choice)
    requires |bs| == |ds|
    ensures Gained(bs + [b], ds + [d], x) == Gained(bs, ds, x) + (if d == x then multiset{b} else multiset{})
  {
    assert (bs + [b])[..|bs|] == bs;
    assert (ds + [d])[..|ds|] == ds;
  }

  /** Gained is the multiset of Select. */
  lemma {:induction false} GainedIsSelect(bs: seq<Box>, ds: seq<Choice>, x: Choice)
    requires |bs| == |ds|
    ensures Gained(bs, ds, x) == multiset(Select(bs, ds, x))
    decreases |bs|
  {
    if bs != [] {
      GainedIsSelect(bs[..|bs| - 1], ds[..|ds| - 1], x);
    }
  }

  lemma StoredSnoc(bs: seq<Box>, ds: seq<Choice>, b: Box, d: Choice)
    requires |bs| == |ds|
    ensures Stored(bs + [b], ds + [d]) == Stored(bs, ds) + (if d.Some? then multiset{b} else multiset{})
  {
    assert (bs + [b])[..|bs|] == bs;
    assert (ds + [d])[..|ds|] == ds;
  }

  /** Appending a box to room `i` raises its used volume by the box's volume and no other room's. */
  lemma UsedAppend(contents: seq<seq<Box>>, i: nat, b: Box)
    requires i < |contents|
    ensures Used(contents[i := contents[i] + [b]]) == Used(contents)[i := Used(contents)[i] + b.volume]
  {
    var after := contents[i := contents[i] + [b]];
    SumSnoc(contents[i], b);
    var u, u' := Used(contents), Used(after);
    assert |u| == |u'|;
    forall j | 0 <= j < |u|
      ensures u'[j] == u[i := u[i] + b.volume][j]
    {
      if j != i {
        assert after[j] == contents[j];
      }
    }
  }

  /** Every box is either rejected or stored, counting duplicates. */
  lemma {:induction false} GainedPartition(bs: seq<Box>, ds: seq<Choice>)
    requires |bs| == |ds|
    ensures multiset(bs) == Gained(bs, ds, None) + Stored(bs, ds)
    decreases |bs|
  {
    if bs != [] {
      var bs', ds' := bs[..|bs| - 1], ds[..|ds| - 1];
      var b, d := bs[|bs| - 1], ds[|ds| - 1];
      assert bs == bs' + [b] && ds == ds' + [d];
      GainedPartition(bs', ds');
      GainedSnoc(bs', ds', b, d, None);
      StoredSnoc(bs', ds', b, d);
    }
  }

  // ---------------------------------------------------------------------------
  // The pass

  /**
   * After `k` boxes: one decision per box, each placement legal, every room's
   * contents its initial contents followed by the boxes sent to it in order,
   * and the rejects the rejected boxes in order.
   */
  ghost predicate Tracks(infos: seq<RoomInfo>, init: seq<seq<Box>>, boxes: seq<Box>, k: nat, st: State) {
    && k <= |boxes| && |init| == |infos| && |st.contents| == |infos| && |st.trace| == k
    && (forall j :: 0 <= j < k && st.trace[j].Some? ==>
          st.trace[j].value < |infos| && Legal(boxes[j], infos[st.trace[j].value]))
    && (forall i :: 0 <= i < |infos| ==> st.contents[i] == init[i] + Select(boxes[..k], st.trace, Some(i)))
    && st.rejected == Select(boxes[..k], st.trace, None)
  }

  lemma StepTracks(infos: seq<RoomInfo>, init: seq<seq<Box>>, boxes: seq<Box>, k: nat, st: State)
    requires k < |boxes| && Tracks(infos, init, boxes, k, st)
    ensures Tracks(infos, init, boxes, k + 1, Step(infos, boxes, k, st))
  {
    var b := boxes[k];
    var d := Decide(infos, Used(st.contents), Reservations(infos, boxes[k + 1..]), b);
    DecidePlacesLegally(infos, Used(st.contents), Reservations(infos, boxes[k + 1..]), b);
    var st' := Step(infos, boxes, k, st);
    assert boxes[..k + 1] == boxes[..k] + [b];
    assert st'.trace == st.trace + [d];
    forall x: Choice
      ensures Select(boxes[..k + 1], st'.trace, x) == Select(boxes[..k], st.trace, x) + (if d == x then [b] else [])
    {
      SelectSnoc(boxes[..k], st.trace, b, d, x);
    }
    forall i | 0 <= i < |infos|
      ensures st'.contents[i] == init[i] + Select(boxes[..k + 1], st'.trace, Some(i))
    {
      assert Select(boxes[..k + 1], st'.trace, Some(i)) == Select(boxes[..k], st.trace, Some(i)) + (if d == Some(i) then [b] else []);
    }
  }

  /** RunFrom keeps Tracks to the end, and never rewrites a decision already taken. */
  lemma {:induction false} RunFromTracks(infos: seq<RoomInfo>, init: seq<seq<Box>>, boxes: seq<Box>, k: nat, st: State)
    requires Tracks(infos, init, boxes, k, st)
    ensures Tracks(infos, init, boxes, |boxes|, RunFrom(infos, boxes, k, st))
    ensures RunFrom(infos, boxes, k, st).trace[..k] == st.trace
    decreases |boxes| - k
  {
    if k < |boxes| {
      StepTracks(infos, init, boxes, k, st);
      var st' := Step(infos, boxes, k, st);
      RunFromTracks(infos, init, boxes, k + 1, st');
      assert st'.trace[..k] == st.trace;
      assert RunFrom(infos, boxes, k, st).trace[..k] == RunFrom(infos, boxes, k + 1, st').trace[..k + 1][..k];
    }
  }

  /**
   * Partition and order: there is one decision per box; room `i` ends with
   * its initial contents followed by exactly the boxes decided for it, in
   * arrival order; the rejects are exactly the boxes decided for no room, in
   * arrival order; and every placed box is legal for its room.
   */
  lemma AllocateTracksEveryBox(infos: seq<RoomInfo>, init: seq<seq<Box>>, boxes: seq<Box>)
    requires |init| == |infos|
    ensures var out := Allocate(infos, init, boxes);
      && |out.contents| == |infos| && |out.trace| == |boxes|
      && (forall j :: 0 <= j < |boxes| && out.trace[j].Some? ==>
            out.trace[j].value < |infos| && Legal(boxes[j], infos[out.trace[j].value]))
      && (forall i :: 0 <= i < |infos| ==> out.contents[i] == init[i] + Select(boxes, out.trace, Some(i)))
      && out.rejected == Select(boxes, out.trace, None)
  {
    var st0 := State(init, [], []);
    assert boxes[..0] == [];
    assert Tracks(infos, init, boxes, 0, st0);
    RunFromTracks(infos, init, boxes, 0, st0);
    assert boxes[..|boxes|] == boxes;
  }

  /** Hazard containment and the stairs rule: every box a room receives is legal for it. */
  lemma AllocatePlacesOnlyLegalBoxes(infos: seq<RoomInfo>, init: seq<seq<Box>>, boxes: seq<Box>, i: nat)
    requires |init| == |infos| && i < |infos|
    ensures var out := Allocate(infos, init, boxes);
      && |init[i]| <= |out.contents[i]| && out.contents[i][..|init[i]|] == init[i]
      && forall x :: x in out.contents[i][|init[i]|..] ==> Legal(x, infos[i])
  {
    AllocateTracksEveryBox(infos, init, boxes);
    var out := Allocate(infos, init, boxes);
    SelectLegal(infos, boxes, out.trace, i);
    assert out.contents[i][|init[i]|..] == Select(boxes, out.trace, Some(i));
  }

  lemma {:induction false} SelectLegal(infos: seq<RoomInfo>, bs: seq<Box>, ds: seq<Choice>, i: nat)
    requires |bs| == |ds| && i < |infos|
    requires forall j :: 0 <= j < |bs| && ds[j] == Some(i) ==> Legal(bs[j], infos[i])
    ensures forall x :: x in Select(bs, ds, Some(i)) ==> Legal(x, infos[i])
    decreases |bs|
  {
    if bs != [] {
      SelectLegal(infos, bs[..|bs| - 1], ds[..|ds| - 1], i);
    }
  }

  /**
   * Every input box ends in exactly one room or among the rejects: the rejects
   * and the stored boxes together are the input, counting duplicates, and each
   * room gained exactly the boxes whose decision names it.
   */
  lemma AllocatePartitionsBoxes(infos: seq<RoomInfo>, init: seq<seq<Box>>, boxes: seq<Box>)
    requires |init| == |infos|
    ensures var out := Allocate(infos, init, boxes);
      && multiset(boxes) == multiset(out.rejected) + Stored(boxes, out.trace)
      && (forall j :: 0 <= j < |boxes| && out.trace[j].Some? ==> out.trace[j].value < |infos|)
      && (forall i :: 0 <= i < |infos| ==> out.contents[i] == init[i] + Select(boxes, out.trace, Some(i)))
  {
    AllocateTracksEveryBox(infos, init, boxes);
    var out := Allocate(infos, init, boxes);
    GainedPartition(boxes, out.trace);
    GainedIsSelect(boxes, out.trace, None);
  }

  // ---------------------------------------------------------------------------
  // Capacity

  ghost predicate WithinCapacity(infos: seq<RoomInfo>, contents: seq<seq<Box>>) {
    |contents| == |infos| && forall i :: 0 <= i < |infos| ==> Sum(contents[i]) <= infos[i].volume
  }

  lemma StepWithinCapacity(infos: seq<RoomInfo>, boxes: seq<Box>, k: nat, st: State)
    requires k < |boxes| && NonNegative(boxes) && WithinCapacity(infos, st.contents)
    ensures WithinCapacity(infos, Step(infos, boxes, k, st).contents)
  {
    var b, later := boxes[k], boxes[k + 1..];
    assert NonNegative(later);
    ReservationsNonNegative(infos, later);
    var used, res := Used(st.contents), Reservations(infos, later);
    DecideRespectsCapacity(infos, used, res, b);
    var d := Decide(infos, used, res, b);
    var st' := Step(infos, boxes, k, st);
    if d.Some? {
      var i := d.value;
      assert st'.contents == st.contents[i := st.contents[i] + [b]];
      SumSnoc(st.contents[i], b);
      assert used[i] == Sum(st.contents[i]);
      forall j | 0 <= j < |infos|
        ensures Sum(st'.contents[j]) <= infos[j].volume
      {
        if j != i {
          assert st'.contents[j] == st.contents[j];
        }
      }
    } else {
      assert st'.contents == st.contents;
    }
  }

  lemma {:induction false} RunFromWithinCapacity(infos: seq<RoomInfo>, boxes: seq<Box>, k: nat, st: State)
    requires k <= |boxes| && NonNegative(boxes) && WithinCapacity(infos, st.contents)
    ensures WithinCapacity(infos, RunFrom(infos, boxes, k, st).contents)
    decreases |boxes| - k
  {
    if k < |boxes| {
      StepWithinCapacity(infos, boxes, k, st);
      RunFromWithinCapacity(infos, boxes, k + 1, Step(infos, boxes, k, st));
    }
  }

  /** Capacity invariant: rooms within capacity beforehand stay within capacity. */
  lemma AllocateWithinCapacity(infos: seq<RoomInfo>, init: seq<seq<Box>>, boxes: seq<Box>)
    requires NonNegative(boxes) && WithinCapacity(infos, init)
    ensures WithinCapacity(infos, Allocate(infos, init, boxes).contents)
  {
    RunFromWithinCapacity(infos, boxes, 0, State(init, [], []));
  }

  // ---------------------------------------------------------------------------
  // Starvation avoidance

  /** Room `r` can still take its own contents plus every remaining box that can only go there. */
  ghost predicate Unstarved(infos: seq<RoomInfo>, boxes: seq<Box>, k: nat, contents: seq<seq<Box>>, r: nat)
    requires k <= |boxes| && r < |infos| == |contents|
  {
    Sum(contents[r]) + Reservations(infos, boxes[k..])[r] <= infos[r].volume
  }

  lemma StepUnstarved(infos: seq<RoomInfo>, boxes: seq<Box>, k: nat, st: State, r: nat)
    requires k < |boxes| && r < |infos| == |st.contents| && NonNegative(boxes)
    requires Unstarved(infos, boxes, k, st.contents, r)
    ensures Unstarved(infos, boxes, k + 1, Step(infos, boxes, k, st).contents, r)
    ensures Forced(infos, boxes[k]) == Some(r) ==>
              Step(infos, boxes, k, st).trace == st.trace + [Some(r)]
  {
    var b, later := boxes[k], boxes[k + 1..];
    assert boxes[k..] == [b] + later;
    assert boxes[k..][1..] == later;
    assert NonNegative(later);
    ReservationsNonNegative(infos, later);
    var used, res := Used(st.contents), Reservations(infos, later);
    var d := Decide(infos, used, res, b);
    if Forced(infos, b).None? {
      DecideUnconstrainedFirstFit(infos, used, res, b);
    }
    if d.Some? {
      SumSnoc(st.contents[d.value], b);
    }
  }

  lemma {:induction false} RunFromUnstarved(infos: seq<RoomInfo>, init: seq<seq<Box>>, boxes: seq<Box>, k: nat, st: State, r: nat)
    requires Tracks(infos, init, boxes, k, st) && r < |infos| && NonNegative(boxes)
    requires Unstarved(infos, boxes, k, st.contents, r)
    ensures |RunFrom(infos, boxes, k, st).trace| == |boxes|
    ensures forall j :: k <= j < |boxes| && Forced(infos, boxes[j]) == Some(r) ==>
              RunFrom(infos, boxes, k, st).trace[j] == Some(r)
    decreases |boxes| - k
  {
    RunFromTracks(infos, init, boxes, k, st);
    if k < |boxes| {
      StepUnstarved(infos, boxes, k, st, r);
      StepTracks(infos, init, boxes, k, st);
      var st' := Step(infos, boxes, k, st);
      RunFromUnstarved(infos, init, boxes, k + 1, st', r);
      RunFromTracks(infos, init, boxes, k + 1, st');
      assert RunFrom(infos, boxes, k, st) == RunFrom(infos, boxes, k + 1, st');
      assert RunFrom(infos, boxes, k + 1, st').trace[..k + 1][k] == st'.trace[k];
    }
  }

  /**
   * Starvation avoidance: when room `r` can hold its initial contents plus
   * every box of the batch that can only go to `r`, no such box is rejected,
   * however many flexible boxes come before it.
   */
  lemma AllocateNeverStarvesConstrainedBoxes(infos: seq<RoomInfo>, init: seq<seq<Box>>, boxes: seq<Box>, r: nat)
    requires |init| == |infos| && r < |infos| && NonNegative(boxes)
    requires Sum(init[r]) + ReservedFor(infos, boxes, r) <= infos[r].volume
    ensures var out := Allocate(infos, init, boxes);
      && |out.trace| == |boxes|
      && forall j :: 0 <= j < |boxes| && Forced(infos, boxes[j]) == Some(r) ==> out.trace[j] == Some(r)
  {
    var st0 := State(init, [], []);
    assert boxes[..0] == [];
    assert boxes[0..] == boxes;
    ReservationsAreSums(infos, boxes, r);
    RunFromUnstarved(infos, init, boxes, 0, st0, r);
  }

  // ---------------------------------------------------------------------------
  // One box at a time

  /** The state of the pass after its first `k` boxes. */
  ghost function StateAt(infos: seq<RoomInfo>, init: seq<seq<Box>>, boxes: seq<Box>, k: nat): (st: State)
    requires |init| == |infos| && k <= |boxes|
    ensures |st.contents| == |infos|
    decreases k
  {
    if k == 0 then State(init, [], [])
    else Step(infos, boxes, k - 1, StateAt(infos, init, boxes, k - 1))
  }

  /** The pass is its first `k` steps followed by the rest, and the bookkeeping invariant holds in between. */
  lemma {:induction false} AllocateSplits(infos: seq<RoomInfo>, init: seq<seq<Box>>, boxes: seq<Box>, k: nat)
    requires |init| == |infos| && k <= |boxes|
    ensures Tracks(infos, init, boxes, k, StateAt(infos, init, boxes, k))
    ensures Allocate(infos, init, boxes) == RunFrom(infos, boxes, k, StateAt(infos, init, boxes, k))
    decreases k
  {
    if k == 0 {
      assert boxes[..0] == [];
    } else {
      AllocateSplits(infos, init, boxes, k - 1);
      StepTracks(infos, init, boxes, k - 1, StateAt(infos, init, boxes, k - 1));
    }
  }

  /** Box `k` is decided on the used volumes left by the boxes before it and the reservations of the boxes after it. */
  lemma AllocateDecidesOnStateAt(infos: seq<RoomInfo>, init: seq<seq<Box>>, boxes: seq<Box>, k: nat)
    requires |init| == |infos| && k < |boxes|
    ensures var st := StateAt(infos, init, boxes, k);
      Allocate(infos, init, boxes).trace[k]
        == Decide(infos, Used(st.contents), Reservations(infos, boxes[k + 1..]), boxes[k])
  {
    var st := StateAt(infos, init, boxes, k);
    var st' := StateAt(infos, init, boxes, k + 1);
    AllocateSplits(infos, init, boxes, k);
    AllocateSplits(infos, init, boxes, k + 1);
    RunFromTracks(infos, init, boxes, k + 1, st');
    assert st' == Step(infos, boxes, k, st);
    assert Allocate(infos, init, boxes).trace[..k + 1][k] == st'.trace[k];
  }

  /**
   * Per-box guarantee for a constrained box: a box whose single legal room is
   * `r` goes there exactly when it fits beside what `r` holds when its turn
   * comes, whatever the flexible boxes around it.
   */
  lemma AllocateConstrainedBoxPlacedIffItFits(infos: seq<RoomInfo>, init: seq<seq<Box>>, boxes: seq<Box>, j: nat, r: nat)
    requires |init| == |infos| && j < |boxes| && Forced(infos, boxes[j]) == Some(r)
    ensures var held := StateAt(infos, init, boxes, j).contents[r];
      Allocate(infos, init, boxes).trace[j]
        == if Sum(held) + boxes[j].volume <= infos[r].volume then Some(r) else None
  {
    var st := StateAt(infos, init, boxes, j);
    AllocateDecidesOnStateAt(infos, init, boxes, j);
    DecideConstrained(infos, Used(st.contents), Reservations(infos, boxes[j + 1..]), boxes[j]);
  }

  /**
   * Flexible boxes never take a constrained box's share: once a box that is not
   * constrained to `r` has entered `r`, every later box constrained to `r` goes to `r`.
   */
  lemma FlexibleBoxInRoomNeverStarvesLaterConstrainedOnes(infos: seq<RoomInfo>, init: seq<seq<Box>>, boxes: seq<Box>,
                                                           i: nat, r: nat)
    requires |init| == |infos| && i < |boxes| && NonNegative(boxes)
    requires Forced(infos, boxes[i]) != Some(r)
    requires Allocate(infos, init, boxes).trace[i] == Some(r)
    ensures forall j :: i < j < |boxes| && Forced(infos, boxes[j]) == Some(r) ==>
              Allocate(infos, init, boxes).trace[j] == Some(r)
  {
    var st := StateAt(infos, init, boxes, i);
    var b := boxes[i];
    var used, res := Used(st.contents), Reservations(infos, boxes[i + 1..]);
    AllocateDecidesOnStateAt(infos, init, boxes, i);
    if Forced(infos, b).Some? {
      // A box constrained elsewhere can only go to its own room.
      DecideConstrained(infos, used, res, b);
      assert false;
    }
    DecideUnconstrainedFirstFit(infos, used, res, b);
    var st' := StateAt(infos, init, boxes, i + 1);
    assert st'.contents[r] == st.contents[r] + [b];
    SumSnoc(st.contents[r], b);
    assert Unstarved(infos, boxes, i + 1, st'.contents, r);
    AllocateSplits(infos, init, boxes, i + 1);
    RunFromUnstarved(infos, init, boxes, i + 1, st', r);
  }
}
