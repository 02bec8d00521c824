// A fourth concrete run in stage order: a partial flush that leaves no orphan
// and still loses a producer.  The load and the addition behind the branch both
// write register 5, so the bank names the addition.  When the branch squashes
// it the bank names nobody, although the load has not finished, and the next
// reader of the register is ready at once.
module PipelineStaleRead {
  import opened Common
  import opened PipelineState
  import opened PipelineSteps
  import opened PipelinePartial
  import opened PipelineRuns
  import opened PipelineStages
  import opened PipelineCounterexamples
  import opened PipelineProducers

  function Overwrites(): Inst {
    AddInst(2, Decoding, [], 0).(outRegs := [5])
  }

  function W1(): State {
    Snapshot(LoadInst(2, DepReady, []), BranchInst(DepReady, false), Overwrites(),
      [], [2], [0, 1], [1], [0], None, 0, None, 0, [], map[5 := 2], 3, [])
  }

  function W2(): State {
    Snapshot(LoadInst(2, Executing, []), BranchInst(Executing, false), Overwrites(),
      [], [2], [0, 1], [1], [0], Some(1), 0, Some(0), 0, [], map[5 := 2], 3, ISSUED)
  }

  function W3(): State {
    Snapshot(LoadInst(2, Executing, []), BranchInst(Executing, false), Overwrites(),
      [], [2], [0, 1], [1], [0], None, 1, Some(0), 1, [1], map[5 := 2], 3, ISSUED)
  }

  function W4(): State {
    Snapshot(LoadInst(2, Executing, []), BranchInst(Ready, false), Overwrites(),
      [], [2], [0, 1], [], [0], None, 1, Some(0), 1, [], map[5 := 2], 3, ISSUED)
  }

  function W5(): State {
    Snapshot(LoadInst(2, Executing, []), BranchInst(Ready, true), Overwrites(),
      [2], [], [0, 1], [], [0], None, 1, Some(0), 1, [], map[], 3, ISSUED)
  }

  function W6(): State {
    Snapshot(LoadInst(2, Executing, []), BranchInst(Ready, true), Fresh(0, 3),
      [], [2], [0, 1], [], [0], None, 1, Some(0), 1, [], map[], 4, ISSUED)
  }

  function W7(): State {
    Snapshot(LoadInst(2, Executing, []), BranchInst(Ready, true), AddInst(3, Decoding, [], 0),
      [], [2], [0, 1], [], [0], None, 1, Some(0), 1, [], map[], 4, ISSUED)
  }

  // ---- second cycle: the addition waits behind load and branch ----

  lemma Overwritten()
    requires Wf(S9(2))
    ensures WriteReg(S9(2), 0, 0, 5) == W1()
  {
    hide Wf;
    var t := WriteReg(S9(2), 0, 0, 5);
    assert t.insts[2].outRegs == [5] && t.insts == W1().insts;
    assert t.regs[0] == map[5 := 2] && t.regs == W1().regs;
  }

  lemma OverwriteAnnounced()
    ensures Staged(W1(), DoDispatch(0)) && Wf(W1()) && CycleOver(W1(), DoDispatch(0))
  {
    hide StagedRun, Staged, WriteReg;
    AddDescribed(2);
    Overwritten();
    StagedStep(S9(2), DoDescribe(0, 0, IntArith, false, true, 0), DoWriteReg(0, 0, 5), W1());
    StagedStep(W1(), DoWriteReg(0, 0, 5), DoDispatch(0), W1());
  }

  lemma BranchStarts()
    requires Wf(W1())
    ensures SupplyGeneric(W1(), 0) == Start(W1(), 1, 0)
  {
    hide Wf;
    var s := Start(W1(), 1, 0);
    assert FreeUnit(W1().units, Branch) == Some(0);
    assert SupplyGeneric(s, 1) == s;
  }

  lemma BranchStarted()
    ensures Wf(Start(W1(), 1, 0))
  {
  }

  lemma LoadStarts()
    requires Wf(W1()) && Wf(Start(W1(), 1, 0))
    ensures Wf(W2()) && SupplyLs(Start(W1(), 1, 0), 0) == W2() && SupplyIo(W2(), 0) == W2()
  {
    hide Wf;
    var s := Start(W1(), 1, 0);
    assert s.units[1..][0] == s.units[1];
    assert FreeUnit(s.units, Load) == Some(1) by { assert FreeUnit(s.units[1..], Load) == Some(0); }
    var t := Start(s, 0, 1).(writeReady := [false][0 := false]);
    assert [false][0 := false] == [false];
    assert t.trace == ISSUED && t.insts == W2().insts && t.units == W2().units;
    assert t == W2();
    assert SupplyLs(t, 1) == t;
  }

  lemma BothStarted()
    ensures Staged(W2(), DoDispatch(0)) && Wf(W2()) && CycleOver(W2(), DoDispatch(0))
  {
    hide StagedRun, Staged, Exec, SupplyGeneric, SupplyLs, SupplyIo, Start;
    OverwriteAnnounced();
    assert Wf(W1()) && Commit(W1()) == W1();
    UnitsIdle(W1());
    CycleBegins(W1(), DoDispatch(0), W1(), W1());
    BranchStarts();
    BranchStarted();
    LoadStarts();
    CycleIssues(W1(), DoExec, W2());
    StagedStep(W2(), DoSupplyIo, DoDispatch(0), W2());
  }

  // ---- third cycle: the branch is written back and flushes ----

  lemma UnitsGoOn()
    requires Wf(W2())
    ensures Exec(W2(), 0) == W3()
  {
    hide Wf;
    hide Exec;
    TwoUnits(W2());
    assert [] + [1] + [] == [1];
  }

  lemma BranchDone()
    requires Wf(W3())
    ensures WriteBack(W3(), 1) == W4()
  {
    hide Wf;
    var a := W3().insts[1 := W3().insts[1].(status := Ready)];
    assert ResolveFrom(a, 1, 0, 1) == a && a == W4().insts;
    hide ResolveFrom;
    assert Without([1], 1) == [] && Without([0], 1) == [0];
    assert ForgetProducer(map[5 := 2], 1, []) == map[5 := 2];
    assert W3().regs[0 := map[5 := 2]] == W4().regs;
  }

  lemma BranchWritten()
    ensures Staged(W4(), DoWriteBack(1)) && Wf(W4())
  {
    hide StagedRun, Staged, Exec, WriteBack;
    BothStarted();
    assert Commit(W2()) == W2();
    UnitsGoOn();
    CycleBegins(W2(), DoDispatch(0), W2(), W3());
    BranchDone();
    StagedStep(W3(), DoExec, DoWriteBack(1), W4());
  }

  lemma AdditionSquashed()
    requires Wf(W4())
    ensures SquashYounger(W4(), 1) == W5()
  {
    hide Wf;
    assert Keep([0], W4().insts, 0, 2) == [0] && Keep([], W4().insts, 0, 2) == [] by {
      assert Keep([], W4().insts, 0, 2) == [];
    }
    assert KeepUnits(W4().units, W4().insts, 0, 2) == W4().units;
    assert SquashQueues(W4(), 0, 2) == W4();
    assert Reverse([2]) == [2];
    assert DropRegs(map[5 := 2], W4().insts, 2) == map[];
    var t := SquashYounger(W4(), 1);
    assert t.decoder == [[]] && t.regs == [map[]] && t.insts == W5().insts;
  }

  lemma AdditionFlushed()
    requires Wf(W4())
    ensures CanFlushOn(W4(), 1) && PartialFlush(W4(), 1) == W5()
  {
    hide Wf;
    hide SquashYounger;
    AdditionSquashed();
    assert IndexOf([0, 1], 1) == 1 by { assert [0, 1][1..] == [1]; }
  }

  // That flush leaves no orphan, but the load has lost its place in the bank.
  lemma FlushLostAProducer()
    ensures Staged(W4(), DoWriteBack(1)) && Wf(W4()) && CanFlushOn(W4(), 1)
    ensures W4().insts[1].kind == Branch && W4().insts[1].status == Ready && !W4().insts[1].foresight
    ensures NoOrphans(W4(), 1) && !NoLostProducer(W4(), 1)
  {
    hide StagedRun, Staged;
    BranchWritten();
    AdditionFlushed();
    var s := W4();
    assert 0 in s.rob && 1 in s.rob && 2 in s.decoder[0];
    assert Writes(s, 0, 5, 2) && WritesOn(s, 1, 5, 0);
    assert LastSurvivor(s, 1, 5, 0);
  }

  lemma SlotReused()
    ensures Staged(W6(), DoAlloc(0)) && Wf(W6())
  {
    hide StagedRun, Staged, PartialFlush, CanFlushOn;
    BranchWritten();
    AdditionFlushed();
    StagedStep(W4(), DoWriteBack(1), DoPartialFlush(1), W5());
    NothingToIssue(W5());
    CycleIssues(W5(), DoPartialFlush(1), W5());
    assert Alloc(W5(), 0).decoder[0] == [2] && Alloc(W5(), 0).supplier == [];
    StagedStep(W5(), DoSupplyIo, DoAlloc(0), W6());
  }

  lemma ReaderDecoded()
    ensures Staged(W7(), DoReadReg(0, 0, 5)) && Wf(W7())
  {
    hide StagedRun, Staged;
    SlotReused();
    StagedStep(W6(), DoAlloc(0), DoDescribe(0, 0, IntArith, false, true, 0), W7());
    StagedStep(W7(), DoDescribe(0, 0, IntArith, false, true, 0), DoReadReg(0, 0, 5), W7());
  }

  lemma LoadIsLastWriter()
    requires Wf(W7())
    ensures LastWriter(W7(), 0, 5, 0)
  {
    hide Wf;
    assert 0 in W7().rob && 1 in W7().rob && 2 in W7().decoder[0];
  }

  // In the same cycle the squashed slot comes back as an instruction that reads
  // the register: the load still executes, and is the last to write it, but the
  // reader is dispatched without waiting.
  lemma StaleRead()
    ensures Staged(W7(), DoReadReg(0, 0, 5)) && Wf(W7()) && W7().decoder[0] == [2]
    ensures LastWriter(W7(), 0, 5, 0) && W7().insts[0].status == Executing && W7().insts[0].id < W7().insts[2].id
    ensures Dispatch(W7(), 0).insts[2].status == DepReady
  {
    hide StagedRun, Staged, Wf, LastWriter;
    ReaderDecoded();
    LoadIsLastWriter();
  }
}
