// A third concrete run in stage order, on from the partial flush of the first:
// without the guard a store counts as executed although it never was.  The
// stale link of the load makes an addition that is executing look ready, so it
// is issued to a second unit; its slot commits, becomes a store, and is written
// back as such when that unit is done.
module PipelineLostStore {
  import opened Common
  import opened PipelineState
  import opened PipelineSteps
  import opened PipelineInvariant
  import opened PipelineRuns
  import opened PipelineStages
  import opened PipelineTheorems
  import opened PipelineCounterexamples

  // The addition that gets the recycled slot, of two cycles,
  function Twice(st: Status, resolved: nat): Inst {
    Inst(0, 3, st, IntArith, [], resolved, [], [], false, true, 2)
  }

  // and the micro-ops of the instruction whose store gets it next.
  function SecondLoad(st: Status): Inst {
    Inst(0, 5, st, Load, [], 0, [], [], false, true, 0)
  }

  function LostStore(st: Status): Inst {
    Inst(0, 6, st, Store, [], 0, [], [], false, true, 0)
  }

  const ONCE: seq<Event> := ISSUED + [Issued(0, 3, IntArith)]
  const TWICE: seq<Event> := ONCE + [Issued(0, 3, IntArith)]
  const HISTORY: seq<Event> := TWICE + [Committed(0, 0), Committed(0, 1)] + [Committed(0, 3)]

  function V1(): State {
    Snapshot(LoadInst(4, Executing, [Link(Some(2), 0)]), BranchInst(Ready, true), AddInst(2, Decoding, [Link(Some(0), 0)], 0),
      [2], [], [0, 1], [], [0], None, 1, Some(0), 2, [], map[5 := 0], 3, ISSUED)
  }

  function V2(): State {
    Snapshot(LoadInst(4, Executing, [Link(Some(2), 0)]), BranchInst(Ready, true), Fresh(0, 3),
      [], [2], [0, 1], [], [0], None, 1, Some(0), 2, [], map[5 := 0], 4, ISSUED)
  }

  function V3(): State {
    Snapshot(LoadInst(4, Executing, [Link(Some(2), 0)]), BranchInst(Ready, true), Twice(Decoding, 0),
      [], [2], [0, 1], [], [0], None, 1, Some(0), 2, [], map[5 := 0], 4, ISSUED)
  }

  function V4(): State {
    Snapshot(LoadInst(4, Executing, [Link(Some(2), 0)]), BranchInst(Ready, true), Twice(DepReady, 0),
      [], [], [0, 1, 2], [2], [0], None, 1, Some(0), 2, [], map[5 := 0], 4, ISSUED)
  }

  function V5(): State {
    Snapshot(LoadInst(4, Executing, [Link(Some(2), 0)]), BranchInst(Ready, true), Twice(DepReady, 0),
      [], [], [0, 1, 2], [2], [0], None, 1, Some(0), 3, [], map[5 := 0], 4, ISSUED)
  }

  function V6(): State {
    Snapshot(LoadInst(4, Executing, [Link(Some(2), 0)]), BranchInst(Ready, true), Twice(Executing, 0),
      [], [], [0, 1, 2], [2], [0], Some(2), 0, Some(0), 3, [], map[5 := 0], 4, ONCE)
  }

  function V7(): State {
    Snapshot(LoadInst(4, Executing, [Link(Some(2), 0)]), BranchInst(Ready, true), Twice(Executing, 0),
      [], [], [0, 1, 2], [2], [0], Some(2), 1, Some(0), 4, [], map[5 := 0], 4, ONCE)
  }

  function V8(): State {
    Snapshot(LoadInst(4, Executing, [Link(Some(2), 0)]), BranchInst(Ready, true), Twice(Executing, 0),
      [], [], [0, 1, 2], [2], [0], Some(2), 2, None, 5, [0], map[5 := 0], 4, ONCE)
  }

  function V9(): State {
    Snapshot(LoadInst(4, Ready, [Link(None, 0)]), BranchInst(Ready, true), Twice(DepReady, 1),
      [], [], [0, 1, 2], [2], [], Some(2), 2, None, 5, [], map[], 4, ONCE)
  }

  function V10(): State {
    Snapshot(LoadInst(4, Ready, [Link(None, 0)]), BranchInst(Ready, true), Twice(Executing, 1),
      [], [], [0, 1, 2], [2], [], Some(2), 2, Some(2), 0, [], map[], 4, TWICE)
  }

  function V11(): State {
    Snapshot(LoadInst(4, Ready, [Link(None, 0)]), BranchInst(Ready, true), Twice(Executing, 1),
      [0, 1], [], [2], [2], [], Some(2), 2, Some(2), 0, [], map[], 4, TWICE + [Committed(0, 0), Committed(0, 1)])
  }

  function V12(): State {
    Snapshot(LoadInst(4, Ready, [Link(None, 0)]), BranchInst(Ready, true), Twice(Executing, 1),
      [0, 1], [], [2], [2], [], None, 3, Some(2), 1, [2], map[], 4, TWICE + [Committed(0, 0), Committed(0, 1)])
  }

  function V13(): State {
    Snapshot(LoadInst(4, Ready, [Link(None, 0)]), BranchInst(Ready, true), Twice(Ready, 1),
      [0, 1], [], [2], [], [], None, 3, Some(2), 1, [], map[], 4, TWICE + [Committed(0, 0), Committed(0, 1)])
  }

  function V14(): State {
    Snapshot(LoadInst(4, Ready, [Link(None, 0)]), BranchInst(Ready, true), Twice(Ready, 1),
      [0, 1, 2], [], [], [], [], None, 3, Some(2), 1, [], map[], 4, HISTORY)
  }

  function V15(): State {
    Snapshot(LoadInst(4, Ready, [Link(None, 0)]), BranchInst(Ready, true), Twice(Ready, 1),
      [0, 1, 2], [], [], [], [], None, 3, Some(2), 2, [], map[], 4, HISTORY)
  }

  function V16(): State {
    Snapshot(Fresh(0, 4), BranchInst(Ready, true), Twice(Ready, 1),
      [1, 2], [0], [], [], [], None, 3, Some(2), 2, [], map[], 5, HISTORY)
  }

  function V17(): State {
    Snapshot(Fresh(0, 4), Fresh(0, 5), Twice(Ready, 1),
      [2], [0, 1], [], [], [], None, 3, Some(2), 2, [], map[], 6, HISTORY)
  }

  function V18(): State {
    Snapshot(Fresh(0, 4), Fresh(0, 5), Fresh(0, 6),
      [], [0, 1, 2], [], [], [], None, 3, Some(2), 2, [], map[], 7, HISTORY)
  }

  function V19(): State {
    Snapshot(AddInst(4, Decoding, [], 0), Fresh(0, 5), Fresh(0, 6),
      [], [0, 1, 2], [], [], [], None, 3, Some(2), 2, [], map[], 7, HISTORY)
  }

  function V20(): State {
    Snapshot(AddInst(4, Decoding, [], 0), SecondLoad(Decoding), Fresh(0, 6),
      [], [0, 1, 2], [], [], [], None, 3, Some(2), 2, [], map[], 7, HISTORY)
  }

  function V21(): State {
    Snapshot(AddInst(4, Decoding, [], 0), SecondLoad(Decoding), LostStore(Decoding),
      [], [0, 1, 2], [], [], [], None, 3, Some(2), 2, [], map[], 7, HISTORY)
  }

  function V22(): State {
    Snapshot(AddInst(4, DepReady, [], 0), SecondLoad(Decoding), LostStore(Decoding),
      [], [1, 2], [0], [0], [], None, 3, Some(2), 2, [], map[], 7, HISTORY)
  }

  function V23(): State {
    Snapshot(AddInst(4, DepReady, [], 0), SecondLoad(DepReady), LostStore(Decoding),
      [], [2], [0, 1], [0], [1], None, 3, Some(2), 2, [], map[], 7, HISTORY)
  }

  function V24(): State {
    Snapshot(AddInst(4, DepReady, [], 0), SecondLoad(DepReady), LostStore(DepReady),
      [], [], [0, 1, 2], [0], [1, 2], None, 3, Some(2), 2, [], map[], 7, HISTORY)
  }

  function V25(): State {
    Snapshot(AddInst(4, DepReady, [], 0), SecondLoad(DepReady), LostStore(DepReady),
      [], [], [0, 1, 2], [0], [1, 2], None, 3, None, 3, [2], map[], 7, HISTORY)
  }

  function V26(): State {
    Snapshot(AddInst(4, DepReady, [], 0), SecondLoad(DepReady), LostStore(Ready),
      [], [], [0, 1, 2], [0], [1], None, 3, None, 3, [], map[], 7, HISTORY)
  }

  // ---- fourth cycle: an addition without dependencies gets the slot ----

  lemma FourthCycle()
    ensures Staged(V1(), DoSupplyIo) && Wf(V1())
  {
    hide StagedRun, Staged, Exec;
    BranchFlushed(4);
    assert Commit(S14(4)) == S14(4);
    TwoUnits(S14(4));
    CycleBegins(S14(4), DoSupplyIo, S14(4), V1());
    NothingToIssue(V1());
    CycleIssues(V1(), DoExec, V1());
  }

  lemma SlotTaken()
    ensures Staged(V2(), DoAlloc(0)) && Wf(V2())
  {
    hide StagedRun, Staged;
    FourthCycle();
    assert Alloc(V1(), 0).decoder[0] == [2] && Alloc(V1(), 0).supplier == [];
    StagedStep(V1(), DoSupplyIo, DoAlloc(0), V2());
  }

  lemma AdditionDispatches()
    requires Wf(V3())
    ensures Dispatch(V3(), 0) == V4()
  {
    hide Wf;
    var t := V3();
    assert t.decoder[0] == [2] && !QueueFull(t, GenericQueue);
    var none: seq<nat> := t.decoder[0][1..];
    assert none == [] && t.decoder[0 := none] == V4().decoder;
    assert t.insts[2 := Twice(DepReady, 0)] == V4().insts;
    assert t.rob + [2] == [0, 1, 2] && t.generic + [2] == [2];
  }

  lemma AdditionDispatched()
    ensures Staged(V4(), DoDispatch(0)) && Wf(V4()) && CycleOver(V4(), DoDispatch(0))
  {
    hide StagedRun, Staged, Dispatch;
    SlotTaken();
    StagedStep(V2(), DoAlloc(0), DoDescribe(0, 0, IntArith, false, true, 2), V3());
    AdditionDispatches();
    StagedStep(V3(), DoDescribe(0, 0, IntArith, false, true, 2), DoDispatch(0), V4());
  }

  // ---- fifth and sixth cycle: it is issued and goes on ----

  lemma AdditionIssues()
    requires Wf(V5())
    ensures SupplyIo(SupplyLs(SupplyGeneric(V5(), 0), 0), 0) == V6()
  {
    hide Wf;
    assert FreeUnit(V5().units, IntArith) == Some(0);
    var t := Start(V5(), 2, 0);
    assert t.trace == ONCE && t.insts == V6().insts && t.units == V6().units;
    assert t == V6() && SupplyGeneric(t, 1) == t;
    assert SupplyLs(t, 1) == t;
  }

  lemma AdditionIssued()
    ensures Staged(V6(), DoSupplyIo) && Wf(V6()) && CycleOver(V6(), DoSupplyIo)
  {
    hide StagedRun, Staged, Exec, SupplyGeneric, SupplyLs, SupplyIo;
    AdditionDispatched();
    assert Commit(V4()) == V4();
    TwoUnits(V4());
    CycleBegins(V4(), DoDispatch(0), V4(), V5());
    AdditionIssues();
    CycleIssues(V5(), DoExec, V6());
  }

  lemma BothGoOn()
    requires Wf(V6())
    ensures Exec(V6(), 0) == V7()
  {
    hide Wf;
    hide Exec;
    TwoUnits(V6());
  }

  // Everything that waits is executing already.
  lemma AllExecuting(s: State)
    requires Wf(s) && s.io == []
    requires forall i :: 0 <= i < |s.generic| ==> s.insts[s.generic[i]].status == Executing
    requires |s.generic| <= 1 && |s.ls| <= 1
    requires forall i :: 0 <= i < |s.ls| ==> s.insts[s.ls[i]].kind == Load && s.insts[s.ls[i]].status == Executing
    ensures SupplyIo(SupplyLs(SupplyGeneric(s, 0), 0), 0) == s
  {
    if s.generic != [] { assert SupplyGeneric(s, 1) == s; }
    if s.ls != [] { assert SupplyLs(s, 1) == s; }
  }

  lemma SixthCycle()
    ensures Staged(V7(), DoSupplyIo) && Wf(V7()) && CycleOver(V7(), DoSupplyIo)
  {
    hide StagedRun, Staged, Exec;
    AdditionIssued();
    assert Commit(V6()) == V6();
    BothGoOn();
    CycleBegins(V6(), DoSupplyIo, V6(), V7());
    AllExecuting(V7());
    CycleIssues(V7(), DoExec, V7());
  }

  // ---- seventh cycle: the load is written back, the addition issued again ----

  lemma LoadReturns()
    requires Wf(V7())
    ensures Exec(V7(), 0) == V8()
  {
    hide Wf;
    hide Exec;
    TwoUnits(V7());
    assert [] + [] + [0] == [0];
  }

  lemma StaleLinkResolves()
    ensures InstsWf(V8().insts[0 := V8().insts[0].(status := Ready)], 1)
    ensures ResolveFrom(V8().insts[0 := V8().insts[0].(status := Ready)], 0, 0, 1) == V9().insts
  {
    var a := V8().insts[0 := V8().insts[0].(status := Ready)];
    var r := ResolveOut(a, 0, 0, 1);
    assert r[0] == V9().insts[0] && r[1] == V9().insts[1] && r[2] == V9().insts[2];
    assert r == V9().insts;
    assert ResolveFrom(r, 0, 1, 1) == r;
  }

  lemma StaleWriteBack()
    requires Wf(V8())
    ensures WriteBack(V8(), 0) == V9()
  {
    hide Wf;
    hide ResolveFrom;
    StaleLinkResolves();
    assert Without([0], 0) == [] && Without([2], 0) == [2];
    assert ForgetProducer(map[5 := 0], 0, [5]) == map[];
  }

  lemma IssuesAgain()
    requires Wf(V9())
    ensures SupplyIo(SupplyLs(SupplyGeneric(V9(), 0), 0), 0) == V10()
  {
    hide Wf;
    var s := V9();
    assert s.units[1..][0] == s.units[1];
    assert FreeUnit(s.units, IntArith) == Some(1) by { assert FreeUnit(s.units[1..], IntArith) == Some(0); }
    var t := Start(s, 2, 1);
    assert t.trace == TWICE && t.insts == V10().insts && t.units == V10().units;
    assert t == V10() && SupplyGeneric(t, 1) == t;
  }

  lemma IssuedTwice()
    ensures Staged(V10(), DoSupplyIo) && Wf(V10()) && CycleOver(V10(), DoSupplyIo)
  {
    hide StagedRun, Staged, Exec, WriteBack, SupplyGeneric, SupplyLs, SupplyIo;
    SixthCycle();
    assert Commit(V7()) == V7();
    LoadReturns();
    CycleBegins(V7(), DoSupplyIo, V7(), V8());
    StaleWriteBack();
    StagedStep(V8(), DoExec, DoWriteBack(0), V9());
    IssuesAgain();
    CycleIssues(V9(), DoWriteBack(0), V10());
  }

  // ---- eighth cycle: load and branch commit, the addition is done once ----

  function V10a(): State {
    V10().(trace := TWICE + [Committed(0, 0)], rob := [1, 2], supplier := [0])
  }

  lemma LoadCommits()
    ensures Wf(V10()) && Wf(V10a()) && Commit(V10()) == Commit(V10a())
  {
    assert [0, 1, 2][1..] == [1, 2] && [] + [0] == [0];
  }

  lemma BranchCommits()
    ensures Wf(V10a()) && Wf(V11()) && Commit(V10a()) == V11()
  {
    assert [1, 2][1..] == [2] && [0] + [1] == [0, 1];
    assert V10a().trace + [Committed(0, 1)] == V11().trace;
    assert Commit(V11()) == V11();
  }

  lemma FirstUnitDone()
    requires Wf(V11())
    ensures Exec(V11(), 0) == V12()
  {
    hide Wf;
    hide Exec;
    TwoUnits(V11());
    assert [] + [2] + [] == [2];
  }

  lemma AdditionFinishes()
    requires Wf(V12())
    ensures WriteBack(V12(), 2) == V13()
  {
    hide Wf;
    var a := V12().insts[2 := V12().insts[2].(status := Ready)];
    assert ResolveFrom(a, 2, 0, 1) == a && a == V13().insts;
    hide ResolveFrom;
    assert Without([2], 2) == [];
    assert ForgetProducer(map[], 2, []) == map[];
  }

  lemma AdditionWrittenBack()
    ensures Staged(V13(), DoSupplyIo) && Wf(V13()) && CycleOver(V13(), DoSupplyIo)
  {
    hide StagedRun, Staged, Commit, Exec, WriteBack;
    IssuedTwice();
    LoadCommits();
    BranchCommits();
    FirstUnitDone();
    CycleBegins(V10(), DoSupplyIo, V11(), V12());
    AdditionFinishes();
    StagedStep(V12(), DoExec, DoWriteBack(2), V13());
    NothingToIssue(V13());
    CycleIssues(V13(), DoWriteBack(2), V13());
  }

  // ---- ninth cycle: it commits, and its slot becomes a store ----

  lemma AdditionCommits()
    ensures Wf(V13()) && Wf(V14()) && Commit(V13()) == V14()
  {
    assert [2][1..] == [] && [0, 1] + [2] == [0, 1, 2];
    assert V13().trace + [Committed(0, 3)] == HISTORY;
    assert Commit(V14()) == V14();
  }

  lemma AdditionCommitted()
    ensures Staged(V15(), DoSupplyIo) && Wf(V15())
  {
    hide StagedRun, Staged, Commit, Exec;
    AdditionWrittenBack();
    AdditionCommits();
    TwoUnits(V14());
    CycleBegins(V13(), DoSupplyIo, V14(), V15());
    NothingToIssue(V15());
    CycleIssues(V15(), DoExec, V15());
  }

  lemma SlotAllocated()
    ensures Staged(V16(), DoAlloc(0)) && Wf(V16())
  {
    hide StagedRun, Staged;
    AdditionCommitted();
    assert Alloc(V15(), 0).decoder[0] == [0] && Alloc(V15(), 0).supplier == [1, 2];
    StagedStep(V15(), DoSupplyIo, DoAlloc(0), V16());
  }

  lemma SlotsAllocated()
    ensures Staged(V17(), DoAlloc(0)) && Wf(V17())
  {
    hide StagedRun, Staged;
    SlotAllocated();
    assert Alloc(V16(), 0).decoder[0] == [0, 1] && Alloc(V16(), 0).supplier == [2];
    StagedStep(V16(), DoAlloc(0), DoAlloc(0), V17());
  }

  lemma LastSlotAllocated()
    ensures Staged(V18(), DoAlloc(0)) && Wf(V18())
  {
    hide StagedRun, Staged;
    SlotsAllocated();
    assert Alloc(V17(), 0).decoder[0] == [0, 1, 2] && Alloc(V17(), 0).supplier == [];
    StagedStep(V17(), DoAlloc(0), DoAlloc(0), V18());
  }

  lemma StoreDescribed()
    ensures Staged(V21(), DoDescribe(0, 2, Store, false, true, 0)) && Wf(V21())
  {
    hide StagedRun, Staged;
    LastSlotAllocated();
    StagedStep(V18(), DoAlloc(0), DoDescribe(0, 0, IntArith, false, true, 0), V19());
    StagedStep(V19(), DoDescribe(0, 0, IntArith, false, true, 0), DoDescribe(0, 1, Load, false, true, 0), V20());
    StagedStep(V20(), DoDescribe(0, 1, Load, false, true, 0), DoDescribe(0, 2, Store, false, true, 0), V21());
  }

  lemma FirstDispatches()
    requires Wf(V21())
    ensures Dispatch(V21(), 0) == V22()
  {
    hide Wf;
    var t := V21();
    assert t.decoder[0] == [0, 1, 2] && !QueueFull(t, GenericQueue);
    var rest: seq<nat> := t.decoder[0][1..];
    assert rest == [1, 2] && t.decoder[0 := rest] == V22().decoder;
    assert t.insts[0 := AddInst(4, DepReady, [], 0)] == V22().insts;
    assert t.rob + [0] == [0] && t.generic + [0] == [0];
  }

  lemma SecondDispatches()
    requires Wf(V22())
    ensures Dispatch(V22(), 0) == V23()
  {
    hide Wf;
    var t := V22();
    assert t.decoder[0] == [1, 2] && !QueueFull(t, LoadStoreQueue);
    var rest: seq<nat> := t.decoder[0][1..];
    assert rest == [2] && t.decoder[0 := rest] == V23().decoder;
    assert t.insts[1 := SecondLoad(DepReady)] == V23().insts;
    assert t.rob + [1] == [0, 1] && t.ls + [1] == [1];
  }

  lemma LostStoreDispatches()
    requires Wf(V23())
    ensures Dispatch(V23(), 0) == V24()
  {
    hide Wf;
    var t := V23();
    assert t.decoder[0] == [2] && !QueueFull(t, LoadStoreQueue);
    var rest: seq<nat> := t.decoder[0][1..];
    assert rest == [] && t.decoder[0 := rest] == V24().decoder;
    assert t.insts[2 := LostStore(DepReady)] == V24().insts;
    assert t.rob + [2] == [0, 1, 2] && t.ls + [2] == [1, 2];
  }

  lemma LostStoreDispatched()
    ensures Staged(V24(), DoDispatch(0)) && Wf(V24()) && CycleOver(V24(), DoDispatch(0))
  {
    hide StagedRun, Staged, Dispatch;
    StoreDescribed();
    FirstDispatches();
    StagedStep(V21(), DoDescribe(0, 2, Store, false, true, 0), DoDispatch(0), V22());
    SecondDispatches();
    StagedStep(V22(), DoDispatch(0), DoDispatch(0), V23());
    LostStoreDispatches();
    StagedStep(V23(), DoDispatch(0), DoDispatch(0), V24());
  }

  // ---- tenth cycle: the second unit is done ----

  lemma SecondUnitDone()
    requires Wf(V24())
    ensures Exec(V24(), 0) == V25()
  {
    hide Wf;
    hide Exec;
    TwoUnits(V24());
    assert [] + [] + [2] == [2];
  }

  lemma LostStoreFinishes()
    requires Wf(V25())
    ensures WriteBack(V25(), 2) == V26()
  {
    hide Wf;
    var a := V25().insts[2 := V25().insts[2].(status := Ready)];
    assert ResolveFrom(a, 2, 0, 1) == a && a == V26().insts;
    hide ResolveFrom;
    assert Without([2], 2) == [] && Without([0], 2) == [0] && Without([1, 2], 2) == [1] by {
      assert [1, 2][1..] == [2];
    }
    assert ForgetProducer(map[], 2, []) == map[];
  }

  lemma LostStoreWrittenBack()
    ensures Staged(V26(), DoWriteBack(2)) && Wf(V26())
  {
    hide StagedRun, Staged, Exec, WriteBack;
    LostStoreDispatched();
    assert Commit(V24()) == V24();
    SecondUnitDone();
    CycleBegins(V24(), DoDispatch(0), V24(), V25());
    LostStoreFinishes();
    StagedStep(V25(), DoExec, DoWriteBack(2), V26());
  }

  lemma NeverIssued()
    ensures Issued(0, 6, Store) !in V26().trace
  {
  }

  // The store is ready to commit, is not the oldest instruction of its cpu, and
  // was never sent to a unit.
  lemma StoreLost()
    ensures Staged(V26(), DoWriteBack(2)) && Wf(V26())
    ensures 2 in V26().rob && V26().insts[2].kind == Store && V26().insts[2].status == Ready
    ensures !OldestOfItsCpu(V26(), 2)
    ensures Issued(0, V26().insts[2].id, Store) !in V26().trace
  {
    hide StagedRun, Staged;
    LostStoreWrittenBack();
    NeverIssued();
    assert V26().rob[0] == 0 && V26().rob[2] == 2;
    assert Live(V26(), 0) && V26().insts[0].id < V26().insts[2].id;
  }
}
