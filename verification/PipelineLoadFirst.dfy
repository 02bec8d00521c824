// A fifth concrete run in stage order: a load is issued before an older store
// of its cpu.
module PipelineLoadFirst {
  import opened Common
  import opened PipelineState
  import opened PipelineSteps
  import opened PipelineRuns
  import opened PipelineStages
  import opened PipelineCounterexamples

  // An addition (id 0), a store (id 1) and a load (id 2), none of which waits
  // for another.
  function Micro(id: nat, kind: Kind, st: Status): Inst {
    Inst(0, id, st, kind, [], 0, [], [], false, true, 0)
  }

  function L2(): State {
    Snapshot(Micro(0, IntArith, Decoding), Unused, Unused,
      [1, 2], [0], [], [], [], None, 0, None, 0, [], map[], 1, [])
  }

  function L3(): State {
    Snapshot(Micro(0, IntArith, DepReady), Unused, Unused,
      [1, 2], [], [0], [0], [], None, 0, None, 0, [], map[], 1, [])
  }

  function L4(): State {
    Snapshot(Micro(0, IntArith, DepReady), Fresh(0, 1), Unused,
      [2], [1], [0], [0], [], None, 0, None, 0, [], map[], 2, [])
  }

  function L5(): State {
    Snapshot(Micro(0, IntArith, DepReady), Micro(1, Store, Decoding), Unused,
      [2], [1], [0], [0], [], None, 0, None, 0, [], map[], 2, [])
  }

  function L6(): State {
    Snapshot(Micro(0, IntArith, DepReady), Micro(1, Store, DepReady), Unused,
      [2], [], [0, 1], [0], [1], None, 0, None, 0, [], map[], 2, [])
  }

  function L7(): State {
    Snapshot(Micro(0, IntArith, DepReady), Micro(1, Store, DepReady), Fresh(0, 2),
      [], [2], [0, 1], [0], [1], None, 0, None, 0, [], map[], 3, [])
  }

  function L8(): State {
    Snapshot(Micro(0, IntArith, DepReady), Micro(1, Store, DepReady), Micro(2, Load, Decoding),
      [], [2], [0, 1], [0], [1], None, 0, None, 0, [], map[], 3, [])
  }

  function L9(): State {
    Snapshot(Micro(0, IntArith, DepReady), Micro(1, Store, DepReady), Micro(2, Load, DepReady),
      [], [], [0, 1, 2], [0], [1, 2], None, 0, None, 0, [], map[], 3, [])
  }

  function L10(): State {
    Snapshot(Micro(0, IntArith, Executing), Micro(1, Store, DepReady), Micro(2, Load, Executing),
      [], [], [0, 1, 2], [0], [1, 2], Some(0), 0, Some(2), 0, [], map[], 3, [Issued(0, 0, IntArith), Issued(0, 2, Load)])
  }

  lemma AddDispatches()
    requires Wf(L2())
    ensures Dispatch(L2(), 0) == L3()
  {
    hide Wf;
    var t := L2();
    assert t.decoder[0] == [0] && !QueueFull(t, GenericQueue);
    var none: seq<nat> := t.decoder[0][1..];
    assert none == [] && t.decoder[0 := none] == L3().decoder;
    assert t.insts[0 := Micro(0, IntArith, DepReady)] == L3().insts;
    assert t.rob + [0] == [0] && t.generic + [0] == [0];
  }

  lemma AddDispatched()
    ensures Staged(L3(), DoDispatch(0)) && Wf(L3())
  {
    hide StagedRun, Staged, Dispatch;
    LoadAllocated();
    StagedStep(S1(), DoAlloc(0), DoDescribe(0, 0, IntArith, false, true, 0), L2());
    AddDispatches();
    StagedStep(L2(), DoDescribe(0, 0, IntArith, false, true, 0), DoDispatch(0), L3());
  }

  lemma StoreDispatches()
    requires Wf(L5())
    ensures Dispatch(L5(), 0) == L6()
  {
    hide Wf;
    var t := L5();
    assert t.decoder[0] == [1] && !QueueFull(t, LoadStoreQueue);
    var none: seq<nat> := t.decoder[0][1..];
    assert none == [] && t.decoder[0 := none] == L6().decoder;
    assert t.insts[1 := Micro(1, Store, DepReady)] == L6().insts;
    assert t.rob + [1] == [0, 1] && t.ls + [1] == [1];
  }

  lemma StoreDescribed()
    ensures Staged(L5(), DoDescribe(0, 0, Store, false, true, 0)) && Wf(L5())
  {
    hide StagedRun, Staged;
    AddDispatched();
    assert Alloc(L3(), 0).decoder[0] == [1] && Alloc(L3(), 0).supplier == [2];
    StagedStep(L3(), DoDispatch(0), DoAlloc(0), L4());
    StagedStep(L4(), DoAlloc(0), DoDescribe(0, 0, Store, false, true, 0), L5());
  }

  lemma StoreDispatched()
    ensures Staged(L6(), DoDispatch(0)) && Wf(L6())
  {
    hide StagedRun, Staged, Dispatch;
    StoreDescribed();
    StoreDispatches();
    StagedStep(L5(), DoDescribe(0, 0, Store, false, true, 0), DoDispatch(0), L6());
  }

  lemma LoadDispatches()
    requires Wf(L8())
    ensures Dispatch(L8(), 0) == L9()
  {
    hide Wf;
    var t := L8();
    assert t.decoder[0] == [2] && !QueueFull(t, LoadStoreQueue);
    var none: seq<nat> := t.decoder[0][1..];
    assert none == [] && t.decoder[0 := none] == L9().decoder;
    assert t.insts[2 := Micro(2, Load, DepReady)] == L9().insts;
    assert t.rob + [2] == [0, 1, 2] && t.ls + [2] == [1, 2];
  }

  lemma LoadDescribed()
    ensures Staged(L8(), DoDescribe(0, 0, Load, false, true, 0)) && Wf(L8())
  {
    hide StagedRun, Staged;
    StoreDispatched();
    assert Alloc(L6(), 0).decoder[0] == [2] && Alloc(L6(), 0).supplier == [];
    StagedStep(L6(), DoDispatch(0), DoAlloc(0), L7());
    StagedStep(L7(), DoAlloc(0), DoDescribe(0, 0, Load, false, true, 0), L8());
  }

  lemma LoadDispatched()
    ensures Staged(L9(), DoDispatch(0)) && Wf(L9()) && CycleOver(L9(), DoDispatch(0))
  {
    hide StagedRun, Staged, Dispatch;
    LoadDescribed();
    LoadDispatches();
    StagedStep(L8(), DoDescribe(0, 0, Load, false, true, 0), DoDispatch(0), L9());
  }

  lemma AddStarts()
    requires Wf(L9())
    ensures SupplyGeneric(L9(), 0) == Start(L9(), 0, 0)
  {
    hide Wf;
    var s := Start(L9(), 0, 0);
    assert FreeUnit(L9().units, IntArith) == Some(0);
    assert SupplyGeneric(s, 1) == s;
  }

  // The store has no permission, and is passed over.
  lemma StorePassedOver()
    ensures Wf(Start(L9(), 0, 0)) && SupplyLs(Start(L9(), 0, 0), 0) == SupplyLs(Start(L9(), 0, 0), 1)
  {
  }

  lemma LoadSent()
    requires Wf(L9()) && Wf(Start(L9(), 0, 0))
    ensures Wf(L10()) && SupplyLs(Start(L9(), 0, 0), 1) == L10() && SupplyIo(L10(), 0) == L10()
  {
    hide Wf;
    var s := Start(L9(), 0, 0);
    assert s.units[1..][0] == s.units[1];
    assert FreeUnit(s.units, Load) == Some(1) by { assert FreeUnit(s.units[1..], Load) == Some(0); }
    var t := Start(s, 2, 1).(writeReady := [false][0 := false]);
    assert [false][0 := false] == [false];
    assert t.trace == [Issued(0, 0, IntArith), Issued(0, 2, Load)] && t.insts == L10().insts && t.units == L10().units;
    assert t == L10();
    assert SupplyLs(t, 2) == t;
  }

  // In the second cycle the load executes while the older store waits for
  // permission.
  lemma LoadPassesStore()
    ensures Staged(L10(), DoSupplyIo) && Wf(L10()) && 1 in L10().rob && 2 in L10().rob
    ensures L10().insts[1].kind == Store && L10().insts[2].kind == Load && L10().insts[1].id < L10().insts[2].id
    ensures L10().insts[1].status == DepReady && L10().insts[2].status == Executing
  {
    hide StagedRun, Staged, Exec, SupplyGeneric, SupplyLs, SupplyIo, Start;
    LoadDispatched();
    assert Commit(L9()) == L9();
    UnitsIdle(L9());
    CycleBegins(L9(), DoDispatch(0), L9(), L9());
    AddStarts();
    StorePassedOver();
    LoadSent();
    CycleIssues(L9(), DoExec, L10());
  }
}
