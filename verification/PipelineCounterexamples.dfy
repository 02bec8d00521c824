// Two concrete runs in stage order.  The first shows that without the guard on
// the partial flush the deadlock check of commit does fire; the second that an
// external interrupt squashes a store that is already executing.
module PipelineCounterexamples {
  import opened Common
  import opened PipelineState
  import opened PipelineSteps
  import opened PipelineSquash
  import opened PipelinePartial
  import opened PipelineRuns
  import opened PipelineStages

  const Unused := Inst(0, 0, Decoding, NoUnit, [], 0, [], [], false, true, 0)

  // One cpu, a pool of three, a generic queue with a single slot.
  function Snapshot(
    i0: Inst, i1: Inst, i2: Inst,
    supplier: seq<nat>, decoder: seq<nat>, rob: seq<nat>, generic: seq<nat>, ls: seq<nat>,
    b0: Option<nat>, c0: nat, b1: Option<nat>, c1: nat,
    response: seq<nat>, regs: map<nat, nat>, nextId: nat, trace: seq<Event>): State
  {
    State([i0, i1, i2], supplier, [decoder], rob, generic, ls, [], 1, 2, 1,
      [Unit({IntArith, Branch}, b0, c0), Unit({IntArith, Load, Store}, b1, c1)],
      response, [regs], [nextId], [false], [false], trace)
  }

  // The load (id 0, n cycles) writes register 5; the branch (id 1) is mispredicted; the
  // addition (id 2) reads register 5.
  function LoadInst(n: nat, st: Status, out: seq<Link>): Inst {
    Inst(0, 0, st, Load, [], 0, out, [5], false, true, n)
  }

  function BranchInst(st: Status, foresight: bool): Inst {
    Inst(0, 1, st, Branch, [], 0, [], [], false, foresight, 0)
  }

  function AddInst(id: nat, st: Status, depIn: seq<Link>, resolved: nat): Inst {
    Inst(0, id, st, IntArith, depIn, resolved, [], [], false, true, 0)
  }

  const ISSUED: seq<Event> := [Issued(0, 1, Branch), Issued(0, 0, Load)]

  function S0(): State {
    Snapshot(Unused, Unused, Unused,
      [0, 1, 2], [], [], [], [], None, 0, None, 0, [], map[], 0, [])
  }

  function S1(): State {
    Snapshot(Fresh(0, 0), Unused, Unused,
      [1, 2], [0], [], [], [], None, 0, None, 0, [], map[], 1, [])
  }

  function S2(n: nat): State {
    Snapshot(LoadInst(n, Decoding, []).(outRegs := []), Unused, Unused,
      [1, 2], [0], [], [], [], None, 0, None, 0, [], map[], 1, [])
  }

  function S3(n: nat): State {
    Snapshot(LoadInst(n, Decoding, []), Unused, Unused,
      [1, 2], [0], [], [], [], None, 0, None, 0, [], map[5 := 0], 1, [])
  }

  function S4(n: nat): State {
    Snapshot(LoadInst(n, DepReady, []), Unused, Unused,
      [1, 2], [], [0], [], [0], None, 0, None, 0, [], map[5 := 0], 1, [])
  }

  function S5(n: nat): State {
    Snapshot(LoadInst(n, DepReady, []), Fresh(0, 1), Unused,
      [2], [1], [0], [], [0], None, 0, None, 0, [], map[5 := 0], 2, [])
  }

  function S6(n: nat): State {
    Snapshot(LoadInst(n, DepReady, []), BranchInst(Decoding, false), Unused,
      [2], [1], [0], [], [0], None, 0, None, 0, [], map[5 := 0], 2, [])
  }

  function S7(n: nat): State {
    Snapshot(LoadInst(n, DepReady, []), BranchInst(DepReady, false), Unused,
      [2], [], [0, 1], [1], [0], None, 0, None, 0, [], map[5 := 0], 2, [])
  }

  function S8(n: nat): State {
    Snapshot(LoadInst(n, DepReady, []), BranchInst(DepReady, false), Fresh(0, 2),
      [], [2], [0, 1], [1], [0], None, 0, None, 0, [], map[5 := 0], 3, [])
  }

  function S9(n: nat): State {
    Snapshot(LoadInst(n, DepReady, []), BranchInst(DepReady, false), AddInst(2, Decoding, [], 0),
      [], [2], [0, 1], [1], [0], None, 0, None, 0, [], map[5 := 0], 3, [])
  }

  function S10(n: nat): State {
    Snapshot(LoadInst(n, DepReady, [Link(Some(2), 0)]), BranchInst(DepReady, false), AddInst(2, Decoding, [Link(Some(0), 0)], 0),
      [], [2], [0, 1], [1], [0], None, 0, None, 0, [], map[5 := 0], 3, [])
  }

  function S11(n: nat): State {
    Snapshot(LoadInst(n, Executing, [Link(Some(2), 0)]), BranchInst(Executing, false), AddInst(2, Decoding, [Link(Some(0), 0)], 0),
      [], [2], [0, 1], [1], [0], Some(1), 0, Some(0), 0, [], map[5 := 0], 3, ISSUED)
  }

  function S12(n: nat): State {
    Snapshot(LoadInst(n, Executing, [Link(Some(2), 0)]), BranchInst(Executing, false), AddInst(2, Decoding, [Link(Some(0), 0)], 0),
      [], [2], [0, 1], [1], [0], None, 1, Some(0), 1, [1], map[5 := 0], 3, ISSUED)
  }

  function S13(n: nat): State {
    Snapshot(LoadInst(n, Executing, [Link(Some(2), 0)]), BranchInst(Ready, false), AddInst(2, Decoding, [Link(Some(0), 0)], 0),
      [], [2], [0, 1], [], [0], None, 1, Some(0), 1, [], map[5 := 0], 3, ISSUED)
  }

  function S14(n: nat): State {
    Snapshot(LoadInst(n, Executing, [Link(Some(2), 0)]), BranchInst(Ready, true), AddInst(2, Decoding, [Link(Some(0), 0)], 0),
      [2], [], [0, 1], [], [0], None, 1, Some(0), 1, [], map[5 := 0], 3, ISSUED)
  }

  function S15(): State {
    Snapshot(LoadInst(2, Executing, [Link(Some(2), 0)]), BranchInst(Ready, true), AddInst(2, Decoding, [Link(Some(0), 0)], 0),
      [2], [], [0, 1], [], [0], None, 1, Some(0), 2, [], map[5 := 0], 3, ISSUED)
  }

  function S16(): State {
    Snapshot(LoadInst(2, Executing, [Link(Some(2), 0)]), BranchInst(Ready, true), Fresh(0, 3),
      [], [2], [0, 1], [], [0], None, 1, Some(0), 2, [], map[5 := 0], 4, ISSUED)
  }

  function S17(): State {
    Snapshot(LoadInst(2, Executing, [Link(Some(2), 0)]), BranchInst(Ready, true), Fresh(0, 3),
      [], [2], [0, 1], [], [0], None, 1, None, 3, [0], map[5 := 0], 4, ISSUED)
  }

  function S18(): State {
    Snapshot(LoadInst(2, Ready, [Link(None, 0)]), BranchInst(Ready, true), Fresh(0, 3).(status := DepReady, resolved := 1),
      [], [2], [0, 1], [], [], None, 1, None, 3, [], map[], 4, ISSUED)
  }

  function S19(): State {
    Snapshot(LoadInst(2, Ready, [Link(None, 0)]), BranchInst(Ready, true), Fresh(0, 3).(status := DepReady, resolved := 1),
      [0, 1], [2], [], [], [], None, 1, None, 3, [], map[], 4, ISSUED + [Committed(0, 0), Committed(0, 1)])
  }

  function S20(): State {
    Snapshot(Fresh(0, 4), BranchInst(Ready, true), Fresh(0, 3).(status := DepReady, resolved := 1),
      [1], [2, 0], [], [], [], None, 1, None, 3, [], map[], 5, ISSUED + [Committed(0, 0), Committed(0, 1)])
  }

  function S21(): State {
    Snapshot(Fresh(0, 4), BranchInst(Ready, true), AddInst(3, DepReady, [], 1),
      [1], [2, 0], [], [], [], None, 1, None, 3, [], map[], 5, ISSUED + [Committed(0, 0), Committed(0, 1)])
  }

  function S22(): State {
    Snapshot(AddInst(4, Decoding, [], 0), BranchInst(Ready, true), AddInst(3, DepReady, [], 1),
      [1], [2, 0], [], [], [], None, 1, None, 3, [], map[], 5, ISSUED + [Committed(0, 0), Committed(0, 1)])
  }

  function S23(): State {
    Snapshot(AddInst(4, Decoding, [], 0), BranchInst(Ready, true), AddInst(3, WaitDep, [], 1),
      [1], [0], [2], [2], [], None, 1, None, 3, [], map[], 5, ISSUED + [Committed(0, 0), Committed(0, 1)])
  }

  // ---- execution on two units ----

  function UnitAfter(s: State, u: nat): Unit
    requires Wf(s) && u < |s.units|
  {
    var x := s.units[u];
    if x.busy.None? then x
    else x.(busy := if x.cycles >= s.insts[x.busy.value].latency then None else x.busy, cycles := x.cycles + 1)
  }

  function Leaves(s: State, u: nat): seq<nat>
    requires Wf(s) && u < |s.units|
  {
    var x := s.units[u];
    if x.busy.Some? && x.cycles >= s.insts[x.busy.value].latency then [x.busy.value] else []
  }

  lemma OneUnit(s: State, u: nat)
    requires Wf(s) && u < |s.units|
    ensures
      var t := s.(units := s.units[u := UnitAfter(s, u)], response := s.response + Leaves(s, u));
      Wf(t) && Exec(s, u) == Exec(t, u + 1)
  {
    if s.units[u].busy.None? {
      assert s.units[u := s.units[u]] == s.units && s.response + [] == s.response;
    } else {
      assert s.response + [] == s.response;
    }
  }

  lemma TwoUnits(s: State)
    requires Wf(s) && |s.units| == 2
    ensures Exec(s, 0) == s.(units := [UnitAfter(s, 0), UnitAfter(s, 1)], response := s.response + Leaves(s, 0) + Leaves(s, 1))
  {
    hide Wf;
    OneUnit(s, 0);
    var t := s.(units := s.units[0 := UnitAfter(s, 0)], response := s.response + Leaves(s, 0));
    OneUnit(t, 1);
    assert s.units[0 := UnitAfter(s, 0)][1 := UnitAfter(s, 1)] == [UnitAfter(s, 0), UnitAfter(s, 1)];
  }

  lemma UnitsIdle(s: State)
    requires Wf(s) && |s.units| == 2 && s.units[0].busy.None? && s.units[1].busy.None?
    ensures Exec(s, 0) == s
  {
    assert Exec(s, 0) == Exec(s, 1) && Exec(s, 1) == s;
  }

  // ---- first cycle: nothing to do before the decoder ----

  lemma IdleCycle()
    ensures Staged(S0(), DoSupplyIo) && Wf(S0())
  {
    hide StagedRun, Staged, Exec;
    assert seq(3, i => i) == [0, 1, 2];
    StagedFirst(S0());
    UnitsIdle(S0());
    StagedStep(S0(), DoCommit, DoExec, S0());
    CycleIssues(S0(), DoExec, S0());
  }

  lemma LoadAllocated()
    ensures Staged(S1(), DoAlloc(0)) && Wf(S1())
  {
    hide StagedRun, Staged;
    IdleCycle();
    assert Alloc(S0(), 0).decoder[0] == [0];
    StagedStep(S0(), DoSupplyIo, DoAlloc(0), S1());
  }

  lemma LoadDescribed(n: nat)
    ensures Staged(S2(n), DoDescribe(0, 0, Load, false, true, n)) && Wf(S2(n))
  {
    hide StagedRun, Staged;
    LoadAllocated();
    StagedStep(S1(), DoAlloc(0), DoDescribe(0, 0, Load, false, true, n), S2(n));
  }

  lemma LoadWrites(n: nat)
    ensures Staged(S3(n), DoWriteReg(0, 0, 5)) && Wf(S3(n))
  {
    hide StagedRun, Staged;
    LoadDescribed(n);
    assert WriteReg(S2(n), 0, 0, 5).insts[0].outRegs == [5];
    StagedStep(S2(n), DoDescribe(0, 0, Load, false, true, n), DoWriteReg(0, 0, 5), S3(n));
  }

  lemma LoadDispatches(n: nat)
    requires Wf(S3(n))
    ensures Dispatch(S3(n), 0) == S4(n)
  {
    hide Wf;
    var t := S3(n);
    assert t.decoder[0] == [0] && !QueueFull(t, LoadStoreQueue);
    var none: seq<nat> := t.decoder[0][1..];
    assert none == [] && t.decoder[0 := none] == S4(n).decoder;
    assert t.insts[0 := LoadInst(n, DepReady, [])] == S4(n).insts;
    assert t.rob + [0] == [0] && t.ls + [0] == [0];
  }

  lemma LoadDispatched(n: nat)
    ensures Staged(S4(n), DoDispatch(0)) && Wf(S4(n))
  {
    hide StagedRun, Staged, Dispatch;
    LoadWrites(n);
    LoadDispatches(n);
    StagedStep(S3(n), DoWriteReg(0, 0, 5), DoDispatch(0), S4(n));
  }

  lemma BranchAllocated(n: nat)
    ensures Staged(S5(n), DoAlloc(0)) && Wf(S5(n))
  {
    hide StagedRun, Staged;
    LoadDispatched(n);
    assert Alloc(S4(n), 0).decoder[0] == [1] && Alloc(S4(n), 0).supplier == [2];
    StagedStep(S4(n), DoDispatch(0), DoAlloc(0), S5(n));
  }

  lemma BranchDescribed(n: nat)
    ensures Staged(S6(n), DoDescribe(0, 0, Branch, false, false, 0)) && Wf(S6(n))
  {
    hide StagedRun, Staged;
    BranchAllocated(n);
    StagedStep(S5(n), DoAlloc(0), DoDescribe(0, 0, Branch, false, false, 0), S6(n));
  }

  lemma BranchDispatches(n: nat)
    requires Wf(S6(n))
    ensures Dispatch(S6(n), 0) == S7(n)
  {
    hide Wf;
    var t := S6(n);
    assert t.decoder[0] == [1] && !QueueFull(t, GenericQueue);
    var none: seq<nat> := t.decoder[0][1..];
    assert none == [] && t.decoder[0 := none] == S7(n).decoder;
    assert t.insts[1 := BranchInst(DepReady, false)] == S7(n).insts;
    assert t.rob + [1] == [0, 1] && t.generic + [1] == [1];
  }

  lemma BranchDispatched(n: nat)
    ensures Staged(S7(n), DoDispatch(0)) && Wf(S7(n))
  {
    hide StagedRun, Staged, Dispatch;
    BranchDescribed(n);
    BranchDispatches(n);
    StagedStep(S6(n), DoDescribe(0, 0, Branch, false, false, 0), DoDispatch(0), S7(n));
  }

  lemma AddAllocated(n: nat)
    ensures Staged(S8(n), DoAlloc(0)) && Wf(S8(n))
  {
    hide StagedRun, Staged;
    BranchDispatched(n);
    assert Alloc(S7(n), 0).decoder[0] == [2] && Alloc(S7(n), 0).supplier == [];
    StagedStep(S7(n), DoDispatch(0), DoAlloc(0), S8(n));
  }

  lemma AddDescribed(n: nat)
    ensures Staged(S9(n), DoDescribe(0, 0, IntArith, false, true, 0)) && Wf(S9(n))
  {
    hide StagedRun, Staged;
    AddAllocated(n);
    StagedStep(S8(n), DoAlloc(0), DoDescribe(0, 0, IntArith, false, true, 0), S9(n));
  }

  lemma AddReads(n: nat)
    requires Wf(S9(n))
    ensures ReadReg(S9(n), 0, 0, 5) == S10(n)
  {
    hide Wf;
    var t := ReadReg(S9(n), 0, 0, 5);
    assert t.insts[0].depOut == [Link(Some(2), 0)] && t.insts[2].depIn == [Link(Some(0), 0)];
    assert t.insts == S10(n).insts;
  }

  // The generic queue has no place for the addition.
  lemma AddRefused(n: nat)
    ensures Staged(S10(n), DoDispatch(0)) && Wf(S10(n)) && CycleOver(S10(n), DoDispatch(0))
  {
    hide StagedRun, Staged, ReadReg;
    AddDescribed(n);
    AddReads(n);
    StagedStep(S9(n), DoDescribe(0, 0, IntArith, false, true, 0), DoReadReg(0, 0, 5), S10(n));
    StagedStep(S10(n), DoReadReg(0, 0, 5), DoDispatch(0), S10(n));
  }

  // ---- second cycle: branch and load are issued ----

  lemma BranchIssues(n: nat)
    requires Wf(S10(n))
    ensures SupplyGeneric(S10(n), 0) == Start(S10(n), 1, 0)
  {
    hide Wf;
    var s := Start(S10(n), 1, 0);
    assert FreeUnit(S10(n).units, Branch) == Some(0);
    assert SupplyGeneric(s, 1) == s;
  }

  lemma LoadIssues(n: nat)
    ensures Wf(Start(S10(n), 1, 0)) && Wf(S11(n)) && SupplyLs(Start(S10(n), 1, 0), 0) == S11(n) && SupplyIo(S11(n), 0) == S11(n)
  {
    var s := Start(S10(n), 1, 0);
    assert s.units[1..][0] == s.units[1];
    assert FreeUnit(s.units, Load) == Some(1) by { assert FreeUnit(s.units[1..], Load) == Some(0); }
    var t := Start(s, 0, 1).(writeReady := [false][0 := false]);
    assert [false][0 := false] == [false];
    assert t.trace == ISSUED && t.insts == S11(n).insts && t.units == S11(n).units;
    assert t == S11(n);
    assert SupplyLs(t, 1) == t;
  }

  lemma BothIssued(n: nat)
    ensures Staged(S11(n), DoDispatch(0)) && Wf(S11(n)) && CycleOver(S11(n), DoDispatch(0))
  {
    hide StagedRun, Staged, Exec, SupplyGeneric, SupplyLs, SupplyIo, Start;
    AddRefused(n);
    assert Wf(S10(n)) && Commit(S10(n)) == S10(n);
    UnitsIdle(S10(n));
    CycleBegins(S10(n), DoDispatch(0), S10(n), S10(n));
    BranchIssues(n);
    LoadIssues(n);
    CycleIssues(S10(n), DoExec, S11(n));
    StagedStep(S11(n), DoSupplyIo, DoDispatch(0), S11(n));
  }

  // ---- third cycle: the branch is written back and flushes ----

  lemma BranchExecutes(n: nat)
    requires n > 0
    requires Wf(S11(n))
    ensures Exec(S11(n), 0) == S12(n)
  {
    hide Wf;
    hide Exec;
    TwoUnits(S11(n));
    assert [] + [1] + [] == [1];
  }

  lemma BranchFinishes(n: nat)
    requires Wf(S12(n))
    ensures WriteBack(S12(n), 1) == S13(n)
  {
    hide Wf;
    var a := S12(n).insts[1 := S12(n).insts[1].(status := Ready)];
    assert ResolveFrom(a, 1, 0, 1) == a && a == S13(n).insts;
    hide ResolveFrom;
    assert Without([1], 1) == [] && Without([0], 1) == [0];
    assert ForgetProducer(map[5 := 0], 1, []) == map[5 := 0];
    assert S12(n).regs[0 := map[5 := 0]] == S13(n).regs;
  }

  lemma BranchWrittenBack(n: nat)
    requires n > 0
    ensures Staged(S13(n), DoWriteBack(1)) && Wf(S13(n))
  {
    hide StagedRun, Staged, Exec, WriteBack;
    BothIssued(n);
    assert Commit(S11(n)) == S11(n);
    BranchExecutes(n);
    CycleBegins(S11(n), DoDispatch(0), S11(n), S12(n));
    BranchFinishes(n);
    StagedStep(S12(n), DoExec, DoWriteBack(1), S13(n));
  }

  lemma LoadKept(n: nat)
    ensures Keep([0], S13(n).insts, 0, 2) == [0] && Keep([], S13(n).insts, 0, 2) == []
    ensures DropRegs(map[5 := 0], S13(n).insts, 2) == map[5 := 0]
  {
    assert Keep([], S13(n).insts, 0, 2) == [];
  }

  lemma QueuesKept(n: nat)
    requires Wf(S13(n))
    ensures SquashQueues(S13(n), 0, 2) == S13(n)
  {
    hide Wf;
    LoadKept(n);
    assert KeepUnits(S13(n).units, S13(n).insts, 0, 2) == S13(n).units;
  }

  lemma YoungerThanBranch(n: nat)
    requires Wf(S13(n))
    ensures SquashYounger(S13(n), 1) == S14(n)
  {
    hide Wf;
    QueuesKept(n);
    LoadKept(n);
    assert Reverse([2]) == [2];
    var t := SquashYounger(S13(n), 1);
    assert t.decoder == [[]];
    assert t.regs == [map[5 := 0]];
    assert t.insts == S14(n).insts;
  }

  lemma BranchFlushes(n: nat)
    requires Wf(S13(n))
    ensures CanFlushOn(S13(n), 1) && PartialFlush(S13(n), 1) == S14(n)
  {
    hide Wf;
    hide SquashYounger;
    YoungerThanBranch(n);
    assert IndexOf([0, 1], 1) == 1 by { assert [0, 1][1..] == [1]; }
  }

  lemma NothingToIssue(s: State)
    requires Wf(s) && s.generic == [] && s.io == [] && (s.ls == [] || (|s.ls| == 1 && s.insts[s.ls[0]].kind == Load && s.insts[s.ls[0]].status == Executing))
    ensures SupplyIo(SupplyLs(SupplyGeneric(s, 0), 0), 0) == s
  {
    if s.ls != [] { assert SupplyLs(s, 1) == s; }
  }

  lemma BranchFlushed(n: nat)
    requires n > 0
    ensures Staged(S14(n), DoSupplyIo) && Wf(S14(n)) && CycleOver(S14(n), DoSupplyIo)
  {
    hide StagedRun, Staged, PartialFlush, CanFlushOn;
    BranchWrittenBack(n);
    BranchFlushes(n);
    StagedStep(S13(n), DoWriteBack(1), DoPartialFlush(1), S14(n));
    NothingToIssue(S14(n));
    CycleIssues(S14(n), DoPartialFlush(1), S14(n));
  }

  // ---- fourth cycle: an instruction of two micro-ops gets one slot ----

  lemma LoadGoesOn()
    requires Wf(S14(2))
    ensures Exec(S14(2), 0) == S15()
  {
    hide Wf;
    hide Exec;
    TwoUnits(S14(2));
  }

  lemma NothingIssued()
    ensures Staged(S15(), DoSupplyIo) && Wf(S15())
  {
    hide StagedRun, Staged, Exec;
    BranchFlushed(2);
    assert Commit(S14(2)) == S14(2);
    LoadGoesOn();
    CycleBegins(S14(2), DoSupplyIo, S14(2), S15());
    NothingToIssue(S15());
    CycleIssues(S15(), DoExec, S15());
  }

  lemma SlotRecycled()
    ensures Staged(S16(), DoAlloc(0)) && Wf(S16()) && CycleOver(S16(), DoAlloc(0))
  {
    hide StagedRun, Staged;
    NothingIssued();
    assert Alloc(S15(), 0).decoder[0] == [2] && Alloc(S15(), 0).supplier == [];
    StagedStep(S15(), DoSupplyIo, DoAlloc(0), S16());
    StagedStep(S16(), DoAlloc(0), DoAlloc(0), S16());
  }

  // ---- fifth cycle: the stale link of the load reaches that slot ----

  lemma LoadExecutes()
    requires Wf(S16())
    ensures Exec(S16(), 0) == S17()
  {
    hide Wf;
    hide Exec;
    TwoUnits(S16());
    assert [] + [] + [0] == [0];
  }

  lemma LoadResolves()
    ensures InstsWf(S17().insts[0 := S17().insts[0].(status := Ready)], 1)
    ensures ResolveFrom(S17().insts[0 := S17().insts[0].(status := Ready)], 0, 0, 1) == S18().insts
  {
    var a := S17().insts[0 := S17().insts[0].(status := Ready)];
    var r := ResolveOut(a, 0, 0, 1);
    assert r[0] == S18().insts[0] && r[1] == S18().insts[1] && r[2] == S18().insts[2];
    assert r == S18().insts;
    assert ResolveFrom(r, 0, 1, 1) == r;
  }

  lemma LoadFinishes()
    requires Wf(S17())
    ensures WriteBack(S17(), 0) == S18()
  {
    hide Wf;
    hide ResolveFrom;
    LoadResolves();
    assert Without([0], 0) == [];
    assert ForgetProducer(map[5 := 0], 0, [5]) == map[];
  }

  lemma LoadWrittenBack()
    ensures Staged(S18(), DoAlloc(0)) && Wf(S18()) && CycleOver(S18(), DoAlloc(0))
  {
    hide StagedRun, Staged, Exec, WriteBack;
    SlotRecycled();
    assert Commit(S16()) == S16();
    LoadExecutes();
    CycleBegins(S16(), DoAlloc(0), S16(), S17());
    LoadFinishes();
    StagedStep(S17(), DoExec, DoWriteBack(0), S18());
    NothingToIssue(S18());
    CycleIssues(S18(), DoWriteBack(0), S18());
    StagedStep(S18(), DoSupplyIo, DoAlloc(0), S18());
  }

  // ---- sixth cycle: two retirements make room for the second micro-op ----

  function S18a(): State {
    S18().(trace := ISSUED + [Committed(0, 0)], rob := [1], supplier := [0])
  }

  lemma FirstCommit()
    ensures Wf(S18()) && Wf(S18a()) && Commit(S18()) == Commit(S18a())
  {
    assert [0, 1][1..] == [1] && [] + [0] == [0];
  }

  lemma SecondCommit()
    ensures Wf(S18a()) && Wf(S19()) && Commit(S18a()) == S19()
  {
    assert [1][1..] == [] && [0] + [1] == [0, 1];
    assert S18a().trace + [Committed(0, 1)] == S19().trace;
    assert Commit(S19()) == S19();
  }

  lemma BothRetired()
    ensures Staged(S19(), DoSupplyIo) && Wf(S19())
  {
    hide StagedRun, Staged, Commit, Exec;
    LoadWrittenBack();
    FirstCommit();
    SecondCommit();
    UnitsIdle(S19());
    CycleBegins(S18(), DoAlloc(0), S19(), S19());
    NothingToIssue(S19());
    CycleIssues(S19(), DoExec, S19());
  }

  lemma MicroOpsDescribed()
    ensures Staged(S22(), DoDescribe(0, 1, IntArith, false, true, 0)) && Wf(S22())
  {
    hide StagedRun, Staged;
    BothRetired();
    assert Alloc(S19(), 0).decoder[0] == [2, 0] && Alloc(S19(), 0).supplier == [1];
    StagedStep(S19(), DoSupplyIo, DoAlloc(0), S20());
    StagedStep(S20(), DoAlloc(0), DoDescribe(0, 0, IntArith, false, true, 0), S21());
    StagedStep(S21(), DoDescribe(0, 0, IntArith, false, true, 0), DoDescribe(0, 1, IntArith, false, true, 0), S22());
  }

  // One dependency was resolved, and there is none: dispatch compares 1 with 0.
  lemma RecycledDispatches()
    requires Wf(S22())
    ensures Dispatch(S22(), 0) == S23()
  {
    hide Wf;
    var t := S22();
    assert t.decoder[0] == [2, 0] && !QueueFull(t, GenericQueue);
    var rest: seq<nat> := t.decoder[0][1..];
    assert rest == [0] && t.decoder[0 := rest] == S23().decoder;
    assert t.insts[2 := AddInst(3, WaitDep, [], 1)] == S23().insts;
    assert t.rob + [2] == [2] && t.generic + [2] == [2];
  }

  // The load is in flight when the branch is written back as mispredicted.
  // The addition waits in the decoder for the load, is squashed with its link
  // in place, and its slot comes back as instruction 3.  The load's write-back
  // then counts a dependency that instruction 3 does not have.  The cycle is
  // over, and the next one opens with the check.
  lemma DeadlockReachable()
    ensures Staged(S23(), DoDispatch(0)) && Wf(S23()) && CycleOver(S23(), DoDispatch(0))
    ensures S23().response == [] && Deadlocked(S23())
  {
    hide StagedRun, Staged, Dispatch;
    MicroOpsDescribed();
    RecycledDispatches();
    StagedStep(S22(), DoDescribe(0, 1, IntArith, false, true, 0), DoDispatch(0), S23());
    assert Dispatch(S23(), 0) == S23() by { RecycledWaits(); }
    StagedStep(S23(), DoDispatch(0), DoDispatch(0), S23());
  }

  lemma RecycledWaits()
    requires Wf(S23())
    ensures Dispatch(S23(), 0) == S23()
  {
    hide Wf;
  }

  // The flush at fault is the one the guard excludes: it is made, for a
  // mispredicted branch that was written back, in a state of that run.
  lemma FlushLeftAnOrphan()
    ensures Staged(S13(2), DoWriteBack(1)) && Wf(S13(2)) && CanFlushOn(S13(2), 1)
    ensures S13(2).insts[1].kind == Branch && S13(2).insts[1].status == Ready && !S13(2).insts[1].foresight
    ensures !NoOrphans(S13(2), 1)
  {
    hide StagedRun, Staged;
    BranchWrittenBack(2);
    BranchFlushes(2);
    var s := S13(2);
    assert 2 in s.decoder[0] && s.insts[2].depIn[0].peer == Some(0);
    assert Survives(s, 0, 0, 2, true);
  }

  // ---- an interrupt squashes an executing store ----

  function StoreInst(st: Status): Inst { Inst(0, 0, st, Store, [], 0, [], [], false, true, 0) }

  function T2(): State {
    Snapshot(StoreInst(Decoding), Unused, Unused, [1, 2], [0], [], [], [], None, 0, None, 0, [], map[], 1, [])
  }

  function T3(): State {
    Snapshot(StoreInst(DepReady), Unused, Unused, [1, 2], [], [0], [], [0], None, 0, None, 0, [], map[], 1, [])
  }

  function T4(): State {
    T3().(writeReady := [true])
  }

  function T5(): State {
    Snapshot(StoreInst(Executing), Unused, Unused, [1, 2], [], [0], [], [0], None, 0, Some(0), 0, [], map[], 1,
      [Issued(0, 0, Store)])
  }

  lemma StoreDispatches()
    requires Wf(T2())
    ensures Dispatch(T2(), 0) == T3()
  {
    hide Wf;
    var t := T2();
    assert t.decoder[0] == [0] && !QueueFull(t, LoadStoreQueue);
    var none: seq<nat> := t.decoder[0][1..];
    assert none == [] && t.decoder[0 := none] == T3().decoder;
    assert t.insts[0 := StoreInst(DepReady)] == T3().insts;
    assert t.rob + [0] == [0] && t.ls + [0] == [0];
  }

  lemma StoreDispatched()
    ensures Staged(T3(), DoDispatch(0)) && Wf(T3()) && CycleOver(T3(), DoDispatch(0))
  {
    hide StagedRun, Staged, Dispatch;
    LoadAllocated();
    StagedStep(S1(), DoAlloc(0), DoDescribe(0, 0, Store, false, true, 0), T2());
    StoreDispatches();
    StagedStep(T2(), DoDescribe(0, 0, Store, false, true, 0), DoDispatch(0), T3());
  }

  lemma StoreStarts()
    ensures Wf(T4()) && Wf(T5()) && SupplyIo(SupplyLs(SupplyGeneric(T4(), 0), 0), 0) == T5()
  {
    var s := T4();
    assert SupplyGeneric(s, 0) == s;
    assert s.units[1..][0] == s.units[1];
    assert FreeUnit(s.units, Store) == Some(1) by { assert FreeUnit(s.units[1..], Store) == Some(0); }
    var t := Start(s, 0, 1).(writeReady := [true][0 := false]);
    assert [true][0 := false] == [false];
    assert t.trace == [Issued(0, 0, Store)] && t.insts == T5().insts && t.units == T5().units;
    assert t == T5();
    assert SupplyLs(t, 1) == t;
  }

  lemma StoreIssued()
    ensures Staged(T5(), DoSupplyIo) && Wf(T5()) && CycleOver(T5(), DoSupplyIo)
  {
    hide StagedRun, Staged, Exec, SupplyGeneric, SupplyLs, SupplyIo;
    StoreDispatched();
    assert Commit(T3()) == T4();
    UnitsIdle(T4());
    CycleBegins(T3(), DoDispatch(0), T4(), T4());
    StoreStarts();
    CycleIssues(T4(), DoExec, T5());
  }

  // The cycle is over, and the next one opens with the interrupt.
  lemma InterruptSquashesIssuedStore()
    ensures Staged(T5(), DoSupplyIo) && Wf(T5()) && CycleOver(T5(), DoSupplyIo) && Enabled(T5(), DoInterrupt(0))
    ensures T5().insts[0].kind == Store && T5().insts[0].status == Executing && 0 in T5().rob
    ensures Next(T5(), DoInterrupt(0)).rob == [] && 0 in Next(T5(), DoInterrupt(0)).supplier
  {
    hide StagedRun, Staged;
    StoreIssued();
    assert 0 in T5().rob;
    assert 0 in Squashed(T5().rob, T5().insts, 0, 0);
  }
}
