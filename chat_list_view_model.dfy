/**
 * The chat list's mock data source (ChatListViewModel.swift, ChatCellData.swift).
 *
 * A room id is the decimal rendering of a counter and a title is the string
 * "title n"; both are kept here as the number they are formatted from.
 */
module ChatListViewModel {

  /** The title "title n". */
  datatype Title = Title(n: nat)

  /** ChatCellData: a room id and a title. */
  datatype ChatCellData = ChatCellData(roomid: nat, title: Title)

  /** Number of records `mockData` appends. */
  const MockBatchSize: nat := 20

  /** The record built from counter value `k`: room id k, title "title k". */
  function MockCell(k: nat): ChatCellData {
    ChatCellData(k, Title(k))
  }

  /** The records for counter values from, from + 1, ..., from + count - 1. */
  function MockRange(from: nat, count: nat): (r: seq<ChatCellData>)
    ensures |r| == count
    ensures forall i :: 0 <= i < count ==> r[i] == MockCell(from + i)
  {
    if count == 0 then [] else MockRange(from, count - 1) + [MockCell(from + count - 1)]
  }

  /** The view model's fields as one value. */
  datatype State = State(currentCount: nat, updateCount: nat, batchCount: nat, cells: seq<ChatCellData>)

  function Initial(): State {
    State(0, 0, 0, [])
  }

  // ---------------------------------------------------------------------------
  // The five mutators, as functions from the old fields to the new ones.

  /** mockData: append twenty fresh records. */
  function Mocked(s: State): (r: State)
    ensures s.cells <= r.cells && |r.cells| == |s.cells| + MockBatchSize
    ensures r.currentCount == s.currentCount + MockBatchSize
    ensures r.updateCount == s.updateCount && r.batchCount == s.batchCount
  {
    s.(cells := s.cells + MockRange(s.currentCount, MockBatchSize),
       currentCount := s.currentCount + MockBatchSize)
  }

  /** insertOneMockData: append one fresh record. */
  function Inserted(s: State): (r: State)
    ensures s.cells <= r.cells && |r.cells| == |s.cells| + 1
    ensures r.cells[|s.cells|].roomid == s.currentCount && r.currentCount == s.currentCount + 1
    ensures r.updateCount == s.updateCount && r.batchCount == s.batchCount
  {
    s.(cells := s.cells + [MockCell(s.currentCount)], currentCount := s.currentCount + 1)
  }

  /** deleteLastItem: drop the last record, if there is one. */
  function LastDeleted(s: State): (r: State)
    ensures r.cells <= s.cells && |r.cells| == if |s.cells| == 0 then 0 else |s.cells| - 1
    ensures r.currentCount == s.currentCount && r.updateCount == s.updateCount && r.batchCount == s.batchCount
  {
    if |s.cells| > 0 then s.(cells := s.cells[..|s.cells| - 1]) else s
  }

  /** updateLastItem: retitle the last record "title u", keeping its room id. */
  function LastUpdated(s: State): (r: State)
    ensures |r.cells| == |s.cells|
    ensures forall i :: 0 <= i < |s.cells| ==> r.cells[i].roomid == s.cells[i].roomid
    ensures forall i :: 0 <= i < |s.cells| - 1 ==> r.cells[i] == s.cells[i]
    ensures r.updateCount == s.updateCount + (if |s.cells| > 0 then 1 else 0)
    ensures r.currentCount == s.currentCount && r.batchCount == s.batchCount
  {
    if |s.cells| > 0 then
      var last := s.cells[|s.cells| - 1];
      s.(cells := s.cells[..|s.cells| - 1] + [ChatCellData(last.roomid, Title(s.updateCount))],
         updateCount := s.updateCount + 1)
    else s
  }

  /** batchUpdate: delete the last, update the (new) last, insert one. */
  function Batched(s: State): (r: State)
    ensures |r.cells| == if |s.cells| <= 1 then 1 else |s.cells|
    ensures r.cells[|r.cells| - 1] == MockCell(s.currentCount)
    ensures r.currentCount == s.currentCount + 1 && r.batchCount == s.batchCount
  {
    Inserted(LastUpdated(LastDeleted(s)))
  }

  datatype Op = MockData | InsertOne | DeleteLast | UpdateLast | BatchUpdate

  function Apply(s: State, op: Op): State {
    match op
    case MockData => Mocked(s)
    case InsertOne => Inserted(s)
    case DeleteLast => LastDeleted(s)
    case UpdateLast => LastUpdated(s)
    case BatchUpdate => Batched(s)
  }

  /** The state after running `ops` in order from `s`. */
  function Run(s: State, ops: seq<Op>): State
    decreases |ops|
  {
    if ops == [] then s else Run(Apply(s, ops[0]), ops[1..])
  }

  // ---------------------------------------------------------------------------
  // The invariant: room ids are pairwise distinct and below currentCount.

  ghost predicate IdsBelow(cells: seq<ChatCellData>, bound: nat) {
    forall i :: 0 <= i < |cells| ==> cells[i].roomid < bound
  }

  ghost predicate IdsDistinct(cells: seq<ChatCellData>) {
    forall i, j :: 0 <= i < j < |cells| ==> cells[i].roomid != cells[j].roomid
  }

  ghost predicate Inv(s: State) {
    IdsBelow(s.cells, s.currentCount) && IdsDistinct(s.cells)
  }

  // ---------------------------------------------------------------------------
  // What each mutator does.

  lemma MockedAppendsTwenty(s: State)
    ensures |Mocked(s).cells| == |s.cells| + 20
    ensures Mocked(s).cells[..|s.cells|] == s.cells
    ensures forall j :: |s.cells| <= j < |s.cells| + 20 ==>
              var k := s.currentCount + (j - |s.cells|);
              Mocked(s).cells[j] == ChatCellData(k, Title(k))
    ensures Mocked(s).currentCount == s.currentCount + 20
    ensures Mocked(s).updateCount == s.updateCount && Mocked(s).batchCount == s.batchCount
  {
    var r := Mocked(s).cells;
    forall j | |s.cells| <= j < |s.cells| + 20
      ensures r[j] == MockCell(s.currentCount + (j - |s.cells|))
    {
      assert r[j] == MockRange(s.currentCount, MockBatchSize)[j - |s.cells|];
    }
  }

  lemma InsertedAppendsOne(s: State)
    ensures Inserted(s).cells == s.cells + [ChatCellData(s.currentCount, Title(s.currentCount))]
    ensures Inserted(s).currentCount == s.currentCount + 1
    ensures Inserted(s).updateCount == s.updateCount && Inserted(s).batchCount == s.batchCount
  {
  }

  lemma LastDeletedDropsLast(s: State)
    ensures |s.cells| == 0 ==> LastDeleted(s) == s
    ensures |s.cells| > 0 ==>
              |LastDeleted(s).cells| == |s.cells| - 1 &&
              (forall i :: 0 <= i < |s.cells| - 1 ==> LastDeleted(s).cells[i] == s.cells[i]) &&
              LastDeleted(s).cells + [s.cells[|s.cells| - 1]] == s.cells
    ensures LastDeleted(s).currentCount == s.currentCount
    ensures LastDeleted(s).updateCount == s.updateCount && LastDeleted(s).batchCount == s.batchCount
  {
  }

  lemma LastUpdatedRetitles(s: State)
    ensures |s.cells| == 0 ==> LastUpdated(s) == s
    ensures |s.cells| > 0 ==>
              var n := |s.cells|;
              var r := LastUpdated(s);
              |r.cells| == n &&
              (forall i :: 0 <= i < n - 1 ==> r.cells[i] == s.cells[i]) &&
              r.cells[n - 1].roomid == s.cells[n - 1].roomid &&
              r.cells[n - 1].title == Title(s.updateCount) &&
              r.updateCount == s.updateCount + 1
    ensures LastUpdated(s).currentCount == s.currentCount && LastUpdated(s).batchCount == s.batchCount
  {
  }

  lemma BatchedCounts(s: State)
    ensures |Batched(s).cells| == if |s.cells| <= 1 then 1 else |s.cells|
    ensures Batched(s).currentCount == s.currentCount + 1
    ensures Batched(s).updateCount == s.updateCount + (if |s.cells| >= 2 then 1 else 0)
    ensures Batched(s).batchCount == s.batchCount
    ensures Batched(s).cells[|Batched(s).cells| - 1] == MockCell(s.currentCount)
  {
  }

  // ---------------------------------------------------------------------------
  // Each mutator keeps the invariant, hence so does every run from the empty start.

  lemma MockRangeIds(from: nat, count: nat)
    ensures forall i :: 0 <= i < count ==> from <= MockRange(from, count)[i].roomid < from + count
    ensures IdsDistinct(MockRange(from, count))
  {
  }

  lemma {:induction false} MockedKeepsInv(s: State)
    requires Inv(s)
    ensures Inv(Mocked(s))
  {
    var old_ := s.cells;
    var added := MockRange(s.currentCount, MockBatchSize);
    var r := Mocked(s).cells;
    MockRangeIds(s.currentCount, MockBatchSize);
    assert r == old_ + added;
    forall i | 0 <= i < |r|
      ensures r[i].roomid < Mocked(s).currentCount
    {
      if i >= |old_| { assert r[i] == added[i - |old_|]; }
    }
    forall i, j | 0 <= i < j < |r|
      ensures r[i].roomid != r[j].roomid
    {
      if j < |old_| {
      } else if i < |old_| {
        assert r[j] == added[j - |old_|];
      } else {
        assert r[i] == added[i - |old_|] && r[j] == added[j - |old_|];
      }
    }
  }

  lemma InsertedKeepsInv(s: State)
    requires Inv(s)
    ensures Inv(Inserted(s))
  {
  }

  lemma LastDeletedKeepsInv(s: State)
    requires Inv(s)
    ensures Inv(LastDeleted(s))
  {
  }

  lemma {:induction false} LastUpdatedKeepsInv(s: State)
    requires Inv(s)
    ensures Inv(LastUpdated(s))
  {
    if |s.cells| > 0 {
      var n := |s.cells|;
      var r := LastUpdated(s).cells;
      assert forall i :: 0 <= i < n ==> r[i].roomid == s.cells[i].roomid;
    }
  }

  lemma {:induction false} BatchedKeepsInv(s: State)
    requires Inv(s)
    ensures Inv(Batched(s))
  {
    LastDeletedKeepsInv(s);
    LastUpdatedKeepsInv(LastDeleted(s));
    InsertedKeepsInv(LastUpdated(LastDeleted(s)));
  }

  lemma {:induction false} ApplyKeepsInv(s: State, op: Op)
    requires Inv(s)
    ensures Inv(Apply(s, op))
  {
    match op
    case MockData => MockedKeepsInv(s);
    case InsertOne => InsertedKeepsInv(s);
    case DeleteLast => LastDeletedKeepsInv(s);
    case UpdateLast => LastUpdatedKeepsInv(s);
    case BatchUpdate => BatchedKeepsInv(s);
  }

  lemma {:induction false} RunKeepsInv(s: State, ops: seq<Op>)
    requires Inv(s)
    ensures Inv(Run(s, ops))
    decreases |ops|
  {
    if ops != [] {
      ApplyKeepsInv(s, ops[0]);
      RunKeepsInv(Apply(s, ops[0]), ops[1..]);
    }
  }

  /** From the empty start, whatever buttons are pressed, room ids stay unique and below currentCount. */
  lemma ReachableInv(ops: seq<Op>)
    ensures IdsBelow(Run(Initial(), ops).cells, Run(Initial(), ops).currentCount)
    ensures IdsDistinct(Run(Initial(), ops).cells)
  {
    RunKeepsInv(Initial(), ops);
  }

  /** The counters never decrease and batchCount is never touched. */
  lemma {:induction false} RunCountersMonotone(s: State, ops: seq<Op>)
    ensures Run(s, ops).currentCount >= s.currentCount
    ensures Run(s, ops).updateCount >= s.updateCount
    ensures Run(s, ops).batchCount == s.batchCount
    decreases |ops|
  {
    if ops != [] {
      RunCountersMonotone(Apply(s, ops[0]), ops[1..]);
    }
  }

  // ---------------------------------------------------------------------------
  // The class itself.

  class ViewModel {
    var currentCount: nat
    var updateCount: nat
    var batchCount: nat
    var cellDataArray: seq<ChatCellData>

    ghost function Model(): State
      reads this
    {
      State(currentCount, updateCount, batchCount, cellDataArray)
    }

    constructor ()
      ensures Model() == Initial()
    {
      currentCount, updateCount, batchCount := 0, 0, 0;
      cellDataArray := [];
    }

    method MockData()
      modifies this
      ensures Model() == Mocked(old(Model()))
    {
      for i := 0 to MockBatchSize
        invariant cellDataArray == old(cellDataArray) + MockRange(old(currentCount), i)
        invariant currentCount == old(currentCount) + i
        invariant updateCount == old(updateCount) && batchCount == old(batchCount)
      {
        var cellData := MockCell(currentCount);
        cellDataArray := cellDataArray + [cellData];
        currentCount := currentCount + 1;
      }
    }

    method InsertOneMockData()
      modifies this
      ensures Model() == Inserted(old(Model()))
    {
      var cellData := MockCell(currentCount);
      cellDataArray := cellDataArray + [cellData];
      currentCount := currentCount + 1;
    }

    method DeleteLastItem()
      modifies this
      ensures Model() == LastDeleted(old(Model()))
    {
      if |cellDataArray| > 0 {
        cellDataArray := cellDataArray[..|cellDataArray| - 1];
      }
    }

    method UpdateLastItem()
      modifies this
      ensures Model() == LastUpdated(old(Model()))
    {
      if |cellDataArray| > 0 {
        var lastCellData := cellDataArray[|cellDataArray| - 1];
        var newCellData := ChatCellData(lastCellData.roomid, Title(updateCount));
        cellDataArray := cellDataArray[|cellDataArray| - 1 := newCellData];
        updateCount := updateCount + 1;
      }
    }

    method BatchUpdate()
      modifies this
      ensures Model() == Batched(old(Model()))
    {
      if |cellDataArray| > 0 {
        cellDataArray := cellDataArray[..|cellDataArray| - 1];
      }
      if |cellDataArray| > 0 {
        var lastCellData := cellDataArray[|cellDataArray| - 1];
        var newCellData := ChatCellData(lastCellData.roomid, Title(updateCount));
        cellDataArray := cellDataArray[|cellDataArray| - 1 := newCellData];
        updateCount := updateCount + 1;
      }
      var cellData := MockCell(currentCount);
      cellDataArray := cellDataArray + [cellData];
      currentCount := currentCount + 1;
    }
  }
}
