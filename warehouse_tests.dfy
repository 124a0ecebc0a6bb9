/**
 * The warehouse examples as client code: build the rooms, hand the batch to
 * AddBoxes, and read back every room's contents and the rejects.
 */
module WarehouseTests {
  import opened HazmatFlags
  import opened Boxes
  import opened Rooms
  import opened Allocation
  import opened Scenarios
  import opened Warehouses

  /**
   * The examples' comparison of a room's contents, or of the rejects, with the
   * expected boxes: the same number of boxes, and every box found is expected.
   */
  predicate EqualContents(expected: seq<Box>, actual: seq<Box>) {
    |expected| == |actual| && forall x :: x in actual ==> x in expected
  }

  /** The same boxes in any order compare equal. */
  lemma PermutationsCompareEqual(expected: seq<Box>, actual: seq<Box>)
    requires multiset(expected) == multiset(actual)
    ensures EqualContents(expected, actual)
  {
    assert |expected| == |multiset(expected)|;
    forall x | x in actual
      ensures x in expected
    {
      assert x in multiset(actual);
    }
  }

  /** The comparison does not count repetitions: two different lists of boxes can compare equal. */
  lemma EqualContentsIgnoresRepetitions(a: Box, b: Box)
    requires a != b
    ensures EqualContents([a, a, b], [a, b, b])
    ensures multiset([a, a, b]) != multiset([a, b, b])
  {
    assert multiset([a, a, b])[a] == 2;
    assert multiset([a, b, b])[a] == 1;
  }

  /** The one room holds the one box. */
  method OneBoxIsAddedToOneRoom() {
    var loadingDock := new Room.WithVolume(100);
    var testObject := new Warehouse([loadingDock]);
    var box1 := NewBox("box1", 10);
    assert Infos([loadingDock]) == [RoomInfo(100, false, NONE)];
    assert Snapshot([loadingDock]) == [[]];
    var rejected := testObject.AddBoxes([box1]);
    OneBoxGoesIntoTheOnlyRoom();
    assert testObject.rooms[0] == loadingDock;
    assert loadingDock.GetBoxes() == [box1];
    assert EqualContents([box1], loadingDock.GetBoxes());
    assert rejected == [];
    assert EqualContents([], rejected);
  }

  /** Boxes go to the first room until its capacity is reached. */
  method BoxesFillTheFirstRoomFirst() {
    var loadingDock := new Room.WithVolume(100);
    var mainStorage := new Room.WithVolume(1000);
    var testObject := new Warehouse([loadingDock, mainStorage]);
    var box1 := NewBox("box1", 10);
    var box2 := NewBox("box2", 70);
    var box3 := NewBox("box3", 15);
    var box4 := NewBox("box4", 10);
    assert Infos([loadingDock, mainStorage]) == [RoomInfo(100, false, NONE), RoomInfo(1000, false, NONE)];
    assert Snapshot([loadingDock, mainStorage]) == [[], []];
    var rejected := testObject.AddBoxes([box1, box2, box3, box4]);
    FirstRoomFillsFirst();
    assert testObject.rooms[0] == loadingDock;
    assert testObject.rooms[1] == mainStorage;
    assert loadingDock.GetBoxes() == [box1, box2, box3];
    assert EqualContents([box1, box2, box3], loadingDock.GetBoxes());
    assert mainStorage.GetBoxes() == [box4];
    assert EqualContents([box4], mainStorage.GetBoxes());
    assert rejected == [];
    assert EqualContents([], rejected);
  }

  /** A box over 50 is not loaded into a room that needs stairs. */
  method LargeBoxIsNotLoadedUpStairs() {
    var basement := new Room.WithStairs(1000, true);
    var mainStorage := new Room.WithStairs(1000, false);
    var testObject := new Warehouse([basement, mainStorage]);
    var box1 := NewBox("box1", 10);
    var box2 := NewBox("box2", 50);
    var box3 := NewBox("box3", 51);
    var box4 := NewBox("box4", 10);
    assert Infos([basement, mainStorage]) == [RoomInfo(1000, true, NONE), RoomInfo(1000, false, NONE)];
    assert Snapshot([basement, mainStorage]) == [[], []];
    var rejected := testObject.AddBoxes([box1, box2, box3, box4]);
    LargeBoxAvoidsStairs();
    assert testObject.rooms[0] == basement;
    assert testObject.rooms[1] == mainStorage;
    assert basement.GetBoxes() == [box1, box2, box4];
    assert EqualContents([box1, box2, box4], basement.GetBoxes());
    assert mainStorage.GetBoxes() == [box3];
    assert EqualContents([box3], mainStorage.GetBoxes());
    assert rejected == [];
    assert EqualContents([], rejected);
  }

  /** Boxes beyond the capacity are rejected. */
  method FinalBoxesBeyondCapacityAreRejected() {
    var loadingDock := new Room.WithVolume(100);
    var testObject := new Warehouse([loadingDock]);
    var box1 := NewBox("box1", 40);
    var box2 := NewBox("box2", 40);
    var box3 := NewBox("box3", 40);
    var box4 := NewBox("box4", 10);
    assert Infos([loadingDock]) == [RoomInfo(100, false, NONE)];
    assert Snapshot([loadingDock]) == [[]];
    var rejected := testObject.AddBoxes([box1, box2, box3, box4]);
    OverflowIsRejected();
    assert testObject.rooms[0] == loadingDock;
    assert loadingDock.GetBoxes() == [box1, box2, box4];
    assert EqualContents([box1, box2, box4], loadingDock.GetBoxes());
    assert rejected == [box3];
    assert EqualContents([box3], rejected);
  }

  /** A chemical box is loaded into the chemical room. */
  method ChemicalBoxIsLoadedInSafeRoom() {
    var loadingDock := new Room(100, false, NONE);
    var chemStorage := new Room(100, false, CHEMICAL);
    var testObject := new Warehouse([loadingDock, chemStorage]);
    var box1 := Box("box1", 10, NONE);
    var box2 := Box("box2", 10, CHEMICAL);
    var box3 := Box("box3", 10, NONE);
    assert Infos([loadingDock, chemStorage]) == [RoomInfo(100, false, NONE), RoomInfo(100, false, CHEMICAL)];
    assert Snapshot([loadingDock, chemStorage]) == [[], []];
    var rejected := testObject.AddBoxes([box1, box2, box3]);
    ChemicalBoxGoesToChemicalRoom();
    assert testObject.rooms[0] == loadingDock;
    assert testObject.rooms[1] == chemStorage;
    assert loadingDock.GetBoxes() == [box1, box3];
    assert EqualContents([box1, box3], loadingDock.GetBoxes());
    assert chemStorage.GetBoxes() == [box2];
    assert EqualContents([box2], chemStorage.GetBoxes());
    assert rejected == [];
    assert EqualContents([], rejected);
  }

  /** A hazardous box with no safe room is rejected. */
  method HazmatWithNoSafeRoomIsRejected() {
    var loadingDock := new Room(100, false, NONE);
    var mainStorage := new Room(1000, false, NONE);
    var testObject := new Warehouse([loadingDock, mainStorage]);
    var box1 := Box("box1", 10, NONE);
    var box2 := Box("box2", 10, CHEMICAL);
    var box3 := Box("box3", 10, NONE);
    assert Infos([loadingDock, mainStorage]) == [RoomInfo(100, false, NONE), RoomInfo(1000, false, NONE)];
    assert Snapshot([loadingDock, mainStorage]) == [[], []];
    var rejected := testObject.AddBoxes([box1, box2, box3]);
    HazmatWithoutSafeRoomIsRejected();
    assert testObject.rooms[0] == loadingDock;
    assert testObject.rooms[1] == mainStorage;
    assert loadingDock.GetBoxes() == [box1, box3];
    assert EqualContents([box1, box3], loadingDock.GetBoxes());
    assert mainStorage.GetBoxes() == [];
    assert EqualContents([], mainStorage.GetBoxes());
    assert rejected == [box2];
    assert EqualContents([box2], rejected);
  }

  /** A chemical box cannot go into a nuclear room. */
  method ChemicalBoxCannotGoInANuclearRoom() {
    var nuclearStorage := new Room(100, false, NUCLEAR);
    var testObject := new Warehouse([nuclearStorage]);
    var box1 := Box("box1", 10, NONE);
    var box2 := Box("box2", 10, CHEMICAL);
    var box3 := Box("box3", 10, NONE);
    assert Infos([nuclearStorage]) == [RoomInfo(100, false, NUCLEAR)];
    assert Snapshot([nuclearStorage]) == [[]];
    var rejected := testObject.AddBoxes([box1, box2, box3]);
    ChemicalBoxRejectedByNuclearRoom();
    assert testObject.rooms[0] == nuclearStorage;
    assert nuclearStorage.GetBoxes() == [box1, box3];
    assert EqualContents([box1, box3], nuclearStorage.GetBoxes());
    assert rejected == [box2];
    assert EqualContents([box2], rejected);
  }

  /** Different hazardous boxes are stored in different rooms while size and stairs are respected. */
  method DifferentHazmatBoxesGoToDifferentRooms() {
    var loadingDock := new Room(100, false, NONE);
    var chemLoft := new Room(100, true, CHEMICAL);
    var vault := new Room(150, false, CHEMICAL | NUCLEAR);
    var testObject := new Warehouse([loadingDock, chemLoft, vault]);
    var box1 := Box("box1", 10, CHEMICAL);
    var box2 := Box("box2", 60, CHEMICAL);
    var box3 := Box("box3", 10, NUCLEAR);
    var box4 := Box("box4", 10, NUCLEAR | CHEMICAL);
    var box5 := Box("box5", 50, CHEMICAL);
    var box6 := Box("box6", 50, CHEMICAL);
    assert Infos([loadingDock, chemLoft, vault]) == [RoomInfo(100, false, NONE), RoomInfo(100, true, CHEMICAL), RoomInfo(150, false, CHEMICAL | NUCLEAR)];
    assert Snapshot([loadingDock, chemLoft, vault]) == [[], [], []];
    var rejected := testObject.AddBoxes([box1, box2, box3, box4, box5, box6]);
    MixedHazardsFindTheirRooms();
    assert testObject.rooms[0] == loadingDock;
    assert testObject.rooms[1] == chemLoft;
    assert testObject.rooms[2] == vault;
    assert loadingDock.GetBoxes() == [];
    assert EqualContents([], loadingDock.GetBoxes());
    assert chemLoft.GetBoxes() == [box1, box5];
    assert EqualContents([box1, box5], chemLoft.GetBoxes());
    assert vault.GetBoxes() == [box2, box3, box4, box6];
    assert EqualContents([box2, box3, box4, box6], vault.GetBoxes());
    assert rejected == [];
    assert EqualContents([], rejected);
  }

  /** Boxes are not placed so that a later hazardous box has no place to go. */
  method BoxesDoNotStarveALaterHazmat() {
    var vault := new Room(150, false, CHEMICAL | NUCLEAR);
    var mainStorage := new Room(1000, false, NONE);
    var testObject := new Warehouse([vault, mainStorage]);
    var box1 := Box("box1", 60, NONE);
    var box2 := Box("box2", 60, NONE);
    var box3 := Box("box3", 60, NONE);
    var box4 := Box("box4", 60, NONE);
    var box5 := Box("box5", 60, CHEMICAL);
    assert Infos([vault, mainStorage]) == [RoomInfo(150, false, CHEMICAL | NUCLEAR), RoomInfo(1000, false, NONE)];
    assert Snapshot([vault, mainStorage]) == [[], []];
    var rejected := testObject.AddBoxes([box1, box2, box3, box4, box5]);
    FlexibleBoxesLeaveRoomForConstrainedOnes();
    assert testObject.rooms[0] == vault;
    assert testObject.rooms[1] == mainStorage;
    assert vault.GetBoxes() == [box1, box5];
    assert EqualContents([box1, box5], vault.GetBoxes());
    assert mainStorage.GetBoxes() == [box2, box3, box4];
    assert EqualContents([box2, box3, box4], mainStorage.GetBoxes());
    assert rejected == [];
    assert EqualContents([], rejected);
  }

  /** Boxes keep their order when there is enough room. */
  method OrderIsPreservedWhenThereIsEnoughRoom() {
    var vault := new Room(150, false, CHEMICAL | NUCLEAR);
    var mainStorage := new Room(1000, false, NONE);
    var testObject := new Warehouse([vault, mainStorage]);
    var box1 := Box("box1", 60, NONE);
    var box2 := Box("box2", 60, NONE);
    var box3 := Box("box3", 60, NONE);
    var box4 := Box("box4", 30, NONE);
    var box5 := Box("box5", 60, CHEMICAL);
    assert Infos([vault, mainStorage]) == [RoomInfo(150, false, CHEMICAL | NUCLEAR), RoomInfo(1000, false, NONE)];
    assert Snapshot([vault, mainStorage]) == [[], []];
    var rejected := testObject.AddBoxes([box1, box2, box3, box4, box5]);
    ReservedBoundIsInclusive();
    assert testObject.rooms[0] == vault;
    assert testObject.rooms[1] == mainStorage;
    assert vault.GetBoxes() == [box1, box4, box5];
    assert EqualContents([box1, box4, box5], vault.GetBoxes());
    assert mainStorage.GetBoxes() == [box2, box3];
    assert EqualContents([box2, box3], mainStorage.GetBoxes());
    assert rejected == [];
    assert EqualContents([], rejected);
  }

}
