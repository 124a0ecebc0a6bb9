# Warehouse box allocator

A model of a small Java warehouse. It has three parts:

- **Boxes.** A `Box` is an immutable value: a name, a volume and a set of hazard flags.
- **Rooms.** A `Room` has a fixed capacity, a stairs flag and hazard certification. It also holds a list of boxes that only grows, through `addBox`.
- **The allocator.** `Warehouse.addBoxes` makes one left-to-right pass over a batch of boxes. Each box goes into one of an ordered list of rooms, or is returned as rejected.

The rules of the pass:

- A box is **legal** for a room when the room's hazard flags contain all of the box's flags, and the box is not over 50 while the room has stairs.
- A box with no legal room is rejected.
- A **constrained** box has exactly one legal room. It goes there when raw capacity allows; otherwise it is rejected.
- A **flexible** box has several legal rooms. It goes to the first legal room, in room order, where `used + volume <= capacity - reserved`. Here `reserved` is the total volume of the later boxes of the batch that are constrained to that room. If no legal room passes, the box is rejected.

The model has eight modules:

- `HazmatFlags`: hazard flags as a `bv32` bit set.
- `Boxes`: the `Box` datatype.
- `Rooms`: the `Room` class, whose `boxes` field is a `seq` that `AddBox` reassigns.
- `Allocation`: the pass as pure functions over value snapshots of the rooms. These are `Legal`, `Feasible`, `Forced`, `Reservations`, `Decide`, `Step`, `RunFrom` and `Allocate`.
- `AllocationLaws`: what the pass guarantees.
  - Partition, and arrival order in every room and in the rejects.
  - Hazard containment and the stairs rule.
  - Capacity.
  - Constrained boxes are never starved: each one goes to its room whenever it fits beside what the room holds at its turn, and flexible boxes never take its share.
- `Warehouses`: the imperative allocator, `Warehouse.AddBoxes`. It is a loop over the boxes that keeps a used-volume tally and a reservation tally per room. The tallies start precomputed and are decremented as constrained boxes are consumed. It appends into the rooms, and it is proved to end in exactly the rooms and rejects that `Allocate` describes.
- `Scenarios`: the repository's JUnit examples, replayed on `Allocate` box by box.
- `WarehouseTests`: the same examples as client code. Each one builds `Room` objects, calls `AddBoxes` and reads back the contents.

`Warehouse.java` and `HazmatFlags.java` are not part of this model. The allocator is rebuilt from the rules above and from what `WarehouseTest.java` expects.

## Model

| member | source | states |
|---|---|---|
| HazmatFlags.NoneIsCoveredByEveryRoom | test/com/hainline/warehouse/WarehouseTest.java:78-92 | an ordinary box (flags NONE) is covered by every room's certification, hazmat rooms included |
| HazmatFlags.UncertifiedRoomCoversOnlyNone | test/com/hainline/warehouse/WarehouseTest.java:94-108 | a room certified for nothing covers a box exactly when the box has no hazard flag |
| HazmatFlags.NuclearRoomDoesNotCoverChemical | test/com/hainline/warehouse/WarehouseTest.java:110-122 | a nuclear-only room covers neither a chemical box nor a chemical-and-nuclear box |
| HazmatFlags.CombinedRoomCoversBoth | test/com/hainline/warehouse/WarehouseTest.java:124-143 | a room certified for CHEMICAL \| NUCLEAR covers chemical, nuclear and combined boxes |
| Boxes.NewBox | src/com/hainline/warehouse/Box.java:8-10 | the two-argument constructor keeps name and volume and gives hazard flags NONE |
| Boxes.GettersReturnConstructorArguments | src/com/hainline/warehouse/Box.java:12-33 | name, volume and flags read back exactly as constructed, and a box prints as its name |
| Boxes.ToString | src/com/hainline/warehouse/Box.java:30-33 | a box prints as its name |
| Rooms.Room.WithVolume | src/com/hainline/warehouse/Room.java:13-15 | the one-argument constructor: given capacity, no stairs, flags NONE, no boxes |
| Rooms.Room.WithStairs | src/com/hainline/warehouse/Room.java:17-19 | the two-argument constructor: given capacity and stairs, flags NONE, no boxes |
| Rooms.Room.constructor | src/com/hainline/warehouse/Room.java:21-26 | the three-argument constructor: every attribute as given, no boxes |
| Rooms.Room.AddBox | src/com/hainline/warehouse/Room.java:32-34 | appends the box with no capacity, hazard or stairs check, and leaves every earlier box in place |
| Rooms.Room.GetBoxes | src/com/hainline/warehouse/Room.java:28-30 | the boxes in insertion order, as a value that callers cannot change the room through |
| Allocation.Legal | test/com/hainline/warehouse/WarehouseTest.java:47-61 | the compatibility rule: the room's flags contain all of the box's flags, and a box over 50 never enters a room with stairs |
| Allocation.Feasible | test/com/hainline/warehouse/WarehouseTest.java:78-92 | the legal rooms of a box in room order, independent of capacity |
| Allocation.FeasibleIsTheLegalRooms | test/com/hainline/warehouse/WarehouseTest.java:78-92 | the feasible-room set lists every legal room and nothing else, each once, in increasing room order |
| Allocation.ReservedFor | test/com/hainline/warehouse/WarehouseTest.java:145-179 | reference definition: the total volume of the later boxes whose single legal room is i |
| Allocation.Reservations | test/com/hainline/warehouse/WarehouseTest.java:145-179 | one reservation per room, built back to front; ReservationsAreSums equates it with ReservedFor |
| Allocation.Step | test/com/hainline/warehouse/WarehouseTest.java:31-179 | one box of the pass: appended to the decided room, or to the rejects, with the decision recorded |
| Allocation.Forced | test/com/hainline/warehouse/WarehouseTest.java:145-161 | a constrained box's single legal room is an existing room |
| Allocation.FirstFittingFrom | test/com/hainline/warehouse/WarehouseTest.java:145-179 | the first candidate position that passes the reserved bound: it passes, all earlier positions fail, and None means every position fails |
| Allocation.Decide | test/com/hainline/warehouse/WarehouseTest.java:31-179 | a box is placed only into an existing room |
| Allocation.RunFrom | test/com/hainline/warehouse/WarehouseTest.java:31-179 | the pass keeps one contents list per room and records one decision per processed box |
| Allocation.Allocate | test/com/hainline/warehouse/WarehouseTest.java:31-179 | one pass records exactly one decision per box and keeps one contents list per room |
| AllocationLaws.ForcedIffOnlyLegalRoom | test/com/hainline/warehouse/WarehouseTest.java:145-161 | a box is constrained to room i if and only if i is legal for it and no other room is |
| AllocationLaws.ReservationsAreSums | test/com/hainline/warehouse/WarehouseTest.java:145-179 | the precomputed reservation of room i equals the total volume of the later boxes constrained to i |
| AllocationLaws.ReservationsCons | test/com/hainline/warehouse/WarehouseTest.java:145-179 | taking a box off the front of the batch removes exactly its own volume from its own room's reservation, and only when it is constrained |
| AllocationLaws.ReservationsNonNegative | test/com/hainline/warehouse/WarehouseTest.java:145-179 | with non-negative volumes no room's reservation is negative |
| AllocationLaws.DecidePlacesLegally | test/com/hainline/warehouse/WarehouseTest.java:47-61 | every placement is into an existing room that is legal for the box (hazard containment and the stairs rule) |
| AllocationLaws.DecideConstrained | test/com/hainline/warehouse/WarehouseTest.java:63-76 | a constrained box goes to its room exactly when raw capacity allows; reservations play no part |
| AllocationLaws.DecideUnconstrainedRejects | test/com/hainline/warehouse/WarehouseTest.java:94-108 | a box that is not constrained is rejected if and only if no legal room passes the reserved bound |
| AllocationLaws.DecideUnconstrainedFirstFit | test/com/hainline/warehouse/WarehouseTest.java:31-45 | a placed box that is not constrained goes to a legal room that passes the reserved bound, and every earlier legal room fails it |
| AllocationLaws.DecideRespectsCapacity | test/com/hainline/warehouse/WarehouseTest.java:63-76 | with non-negative reservations every placement fits the room's raw capacity |
| AllocationLaws.UsedAppend | src/com/hainline/warehouse/Room.java:32-34 | appending a box to room i raises room i's used volume by the box's volume and changes no other room's |
| AllocationLaws.GainedIsSelect | test/com/hainline/warehouse/WarehouseTest.java:163-179 | the multiset of boxes sent to a destination is the multiset of the ordered list of them |
| AllocationLaws.GainedPartition | test/com/hainline/warehouse/WarehouseTest.java:63-76 | counting repetitions, the input is the rejected boxes plus the stored boxes |
| AllocationLaws.StepTracks | test/com/hainline/warehouse/WarehouseTest.java:31-179 | one step keeps the bookkeeping invariant: one decision per box, legal placements, every room its initial contents followed by its boxes in order, the rejects in order |
| AllocationLaws.RunFromTracks | test/com/hainline/warehouse/WarehouseTest.java:31-179 | the rest of the pass keeps that invariant to the end and never rewrites an earlier decision |
| AllocationLaws.AllocateTracksEveryBox | test/com/hainline/warehouse/WarehouseTest.java:31-179 | after the pass every room holds its initial contents followed by exactly the boxes decided for it, in arrival order; the rejects are exactly the boxes decided for no room, in order; and every placement is legal |
| AllocationLaws.AllocatePlacesOnlyLegalBoxes | test/com/hainline/warehouse/WarehouseTest.java:47-61 | a room keeps its initial contents as a prefix, and every box it receives is legal for it |
| AllocationLaws.SelectLegal | test/com/hainline/warehouse/WarehouseTest.java:78-92 | when every box decided for room i is legal for i, so is every box of the list sent to i |
| AllocationLaws.AllocatePartitionsBoxes | test/com/hainline/warehouse/WarehouseTest.java:63-76 | every input box ends in exactly one room or among the rejects, counting repetitions, and each room gained exactly its decided boxes |
| AllocationLaws.StepWithinCapacity | test/com/hainline/warehouse/WarehouseTest.java:63-76 | with non-negative volumes, one step keeps every room within capacity |
| AllocationLaws.RunFromWithinCapacity | test/com/hainline/warehouse/WarehouseTest.java:63-76 | with non-negative volumes, the rest of the pass keeps every room within capacity |
| AllocationLaws.AllocateWithinCapacity | test/com/hainline/warehouse/WarehouseTest.java:63-76 | with non-negative volumes, rooms within capacity before the pass are within capacity after it |
| AllocationLaws.StepUnstarved | test/com/hainline/warehouse/WarehouseTest.java:145-161 | one step keeps room r able to take its contents plus every remaining box constrained to it, and a box constrained to r is then placed in r |
| AllocationLaws.RunFromUnstarved | test/com/hainline/warehouse/WarehouseTest.java:145-161 | while that headroom holds, every remaining box constrained to r goes to r |
| AllocationLaws.AllocateNeverStarvesConstrainedBoxes | test/com/hainline/warehouse/WarehouseTest.java:145-161 | when room r can hold its initial contents plus every box of the batch constrained to r, each such box goes to r, however many flexible boxes come first |
| AllocationLaws.AllocateSplits | test/com/hainline/warehouse/WarehouseTest.java:31-179 | the pass is its first k steps followed by the rest, and the bookkeeping invariant holds after those k steps |
| AllocationLaws.AllocateDecidesOnStateAt | test/com/hainline/warehouse/WarehouseTest.java:31-179 | each box is decided on the used volumes left by the boxes before it and the reservations of the boxes after it |
| AllocationLaws.AllocateConstrainedBoxPlacedIffItFits | test/com/hainline/warehouse/WarehouseTest.java:145-179 | a box whose single legal room is r goes to r exactly when it fits beside what r holds at its turn, whatever flexible boxes came before; otherwise it is rejected |
| AllocationLaws.FlexibleBoxInRoomNeverStarvesLaterConstrainedOnes | test/com/hainline/warehouse/WarehouseTest.java:145-161 | once a box not constrained to r has entered r, every later box constrained to r goes to r: flexible boxes never take a constrained box's share |
| Warehouses.TotalVolume | test/com/hainline/warehouse/WarehouseTest.java:31-45 | the loop adds the volumes of a list of boxes |
| Warehouses.LegalRooms | test/com/hainline/warehouse/WarehouseTest.java:47-61 | the loop collects exactly the feasible rooms of a box, in room order |
| Warehouses.ChooseRoom | test/com/hainline/warehouse/WarehouseTest.java:145-179 | the loop over the legal rooms picks exactly the room the decision rule picks |
| Warehouses.UsedVolumes | test/com/hainline/warehouse/WarehouseTest.java:31-45 | the loop computes every room's used volume |
| Warehouses.ReservationTally | test/com/hainline/warehouse/WarehouseTest.java:145-179 | the backward loop precomputes every room's reservation for the whole batch |
| Warehouses.ReservationsDrop | test/com/hainline/warehouse/WarehouseTest.java:145-179 | decrementing a constrained box's own room's reservation gives the reservations of the boxes after it |
| Warehouses.StepTallies | test/com/hainline/warehouse/WarehouseTest.java:31-179 | a decision made on the tallies moves the pass exactly as Step does, and the used tally follows the contents |
| Warehouses.Advance | test/com/hainline/warehouse/WarehouseTest.java:31-179 | processing one box on the tallies gives the next state of the pass, and the new tallies are that state's |
| Warehouses.Warehouse.constructor | test/com/hainline/warehouse/WarehouseTest.java:22 | the warehouse keeps the rooms in the order given |
| Warehouses.Warehouse.AddBoxes | test/com/hainline/warehouse/WarehouseTest.java:19-179 | the returned rejects and every room's new contents are exactly those of Allocate, starting from the rooms' contents at the call |
| Scenarios.OneBoxGoesIntoTheOnlyRoom | test/com/hainline/warehouse/WarehouseTest.java:19-29 | rooms [100], box of 10: the room holds box1 and nothing is rejected |
| Scenarios.FirstRoomFillsFirst | test/com/hainline/warehouse/WarehouseTest.java:31-45 | rooms 100 and 1000, boxes 10, 70, 15, 10: the first room holds box1, box2, box3 and the second box4 |
| Scenarios.LargeBoxAvoidsStairs | test/com/hainline/warehouse/WarehouseTest.java:47-61 | stairs basement and main room, boxes 10, 50, 51, 10: the basement holds box1, box2, box4 and the main room box3 |
| Scenarios.OverflowIsRejected | test/com/hainline/warehouse/WarehouseTest.java:63-76 | one room of 100, boxes 40, 40, 40, 10: the room holds box1, box2, box4 and only box3 is rejected |
| Scenarios.ChemicalBoxGoesToChemicalRoom | test/com/hainline/warehouse/WarehouseTest.java:78-92 | the dock holds box1, box3, the chemical room box2, and nothing is rejected |
| Scenarios.HazmatWithoutSafeRoomIsRejected | test/com/hainline/warehouse/WarehouseTest.java:94-108 | the dock holds box1, box3, the main room stays empty, and the chemical box2 is rejected |
| Scenarios.ChemicalBoxRejectedByNuclearRoom | test/com/hainline/warehouse/WarehouseTest.java:110-122 | the nuclear room holds box1, box3 and the chemical box2 is rejected |
| Scenarios.MixedHazardsFindTheirRooms | test/com/hainline/warehouse/WarehouseTest.java:124-143 | the dock stays empty, the chemical loft holds box1, box5, the vault box2, box3, box4, box6, and nothing is rejected |
| Scenarios.FlexibleBoxesLeaveRoomForConstrainedOnes | test/com/hainline/warehouse/WarehouseTest.java:145-161 | the vault holds box1, box5, the main room box2, box3, box4, and nothing is rejected |
| Scenarios.ReservedBoundIsInclusive | test/com/hainline/warehouse/WarehouseTest.java:163-179 | the vault holds box1, box4, box5 (60 + 30 fits under 150 - 60), the main room box2, box3, and nothing is rejected |
| WarehouseTests.OneBoxIsAddedToOneRoom | test/com/hainline/warehouse/WarehouseTest.java:19-29 | the room built with one argument holds box1 after AddBoxes, both as exact sequences and under the examples' comparison |
| WarehouseTests.BoxesFillTheFirstRoomFirst | test/com/hainline/warehouse/WarehouseTest.java:31-45 | after AddBoxes the dock holds box1, box2, box3 and the main room box4, both as exact sequences and under the examples' comparison |
| WarehouseTests.LargeBoxIsNotLoadedUpStairs | test/com/hainline/warehouse/WarehouseTest.java:47-61 | after AddBoxes the basement holds box1, box2, box4 and the main room box3, both as exact sequences and under the examples' comparison |
| WarehouseTests.FinalBoxesBeyondCapacityAreRejected | test/com/hainline/warehouse/WarehouseTest.java:63-76 | AddBoxes leaves box1, box2, box4 in the room and returns box3 as rejected, both as exact sequences and under the examples' comparison |
| WarehouseTests.ChemicalBoxIsLoadedInSafeRoom | test/com/hainline/warehouse/WarehouseTest.java:78-92 | after AddBoxes the dock holds box1, box3, the chemical room box2, and the rejects are empty, both as exact sequences and under the examples' comparison |
| WarehouseTests.HazmatWithNoSafeRoomIsRejected | test/com/hainline/warehouse/WarehouseTest.java:94-108 | after AddBoxes the dock holds box1, box3, the main room is empty, and box2 is returned as rejected, both as exact sequences and under the examples' comparison |
| WarehouseTests.ChemicalBoxCannotGoInANuclearRoom | test/com/hainline/warehouse/WarehouseTest.java:110-122 | after AddBoxes the nuclear room holds box1, box3 and box2 is returned as rejected, both as exact sequences and under the examples' comparison |
| WarehouseTests.DifferentHazmatBoxesGoToDifferentRooms | test/com/hainline/warehouse/WarehouseTest.java:124-143 | after AddBoxes the dock is empty, the loft holds box1, box5, the vault box2, box3, box4, box6, and nothing is rejected, both as exact sequences and under the examples' comparison |
| WarehouseTests.BoxesDoNotStarveALaterHazmat | test/com/hainline/warehouse/WarehouseTest.java:145-161 | after AddBoxes the vault holds box1, box5, the main room box2, box3, box4, and nothing is rejected, both as exact sequences and under the examples' comparison |
| WarehouseTests.OrderIsPreservedWhenThereIsEnoughRoom | test/com/hainline/warehouse/WarehouseTest.java:163-179 | after AddBoxes the vault holds box1, box4, box5, the main room box2, box3, and nothing is rejected, both as exact sequences and under the examples' comparison |
| WarehouseTests.PermutationsCompareEqual | test/com/hainline/warehouse/WarehouseTest.java:14-17 | the examples' comparison accepts the expected boxes in any order |
| WarehouseTests.EqualContentsIgnoresRepetitions | test/com/hainline/warehouse/WarehouseTest.java:14-17 | the comparison checks size and membership only, so two lists with different repetitions compare equal |

## Left out

- Java `int` arithmetic: volumes and capacities are unbounded integers, so overflow is not modelled. The capacity and starvation laws require non-negative volumes, which is the domain the system describes.
- `HazmatFlags.java` is not part of this model. `NONE = 0`, `CHEMICAL = 1` and `NUCLEAR = 2` are chosen values: any two distinct single bits give the same behaviour. The examples combine the flags with `|`, so they must be bits.
- `Warehouse.java` is not part of this model. `AddBoxes` follows the rules stated at the top. No example has two legal rooms that both carry a reservation, so what happens then rests on those rules alone.
- `Warehouses.Warehouse.AddBoxes`: used volumes start from the rooms' contents at the call. The examples only use empty rooms.
- `Warehouses.Warehouse.AddBoxes` requires the rooms to be distinct objects. A room listed twice, so that it aliases itself, is not modelled.
- `Rooms.Room.GetBoxes` returns the `boxes` sequence itself. Being a value, it cannot be changed through the result, which stands in for `Collections.unmodifiableList`.
- Box identity: the Java `Box` does not override `equals`, so `containsAll` in the examples compares boxes by identity. The model's `Box` is a value with structural equality, so two Java boxes with equal name, volume and flags are one value here. The allocator never compares boxes, and every example gives its boxes distinct names.
- Box names carry no logic. `toString` is the name, and string formatting is not modelled.
- The JUnit harness, meaning `TestCase`, `assertTrue` and the message built in `assertEqualContents`, is left out. `WarehouseTests` asserts each expectation both as exact sequences and through `EqualContents`.
- Scenario lemmas state exact sequences, in arrival order. The examples themselves compare only size and membership.
- Concurrency, and reusing rooms across several batches: the pass assumes sole ownership of the rooms for one call.
