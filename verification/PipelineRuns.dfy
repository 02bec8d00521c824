// Whole runs of the window.  A run interleaves the operations freely, so what
// holds of all runs holds of those in stage order (PipelineStages).
module PipelineRuns {
  import opened PipelineState
  import opened PipelineSteps
  import opened PipelineInvariant
  import opened PipelineDecode
  import opened PipelineDispatch
  import opened PipelineIssue
  import opened PipelineWriteBack
  import opened PipelineFlush
  import opened PipelinePartial
  import opened PipelineOrphans

  datatype Step =
    | DoAlloc(c: nat)
    | DoDescribe(c: nat, k: nat, kind: Kind, serial: bool, foresight: bool, latency: nat)
    | DoReadReg(c: nat, k: nat, r: nat)
    | DoLink(c: nat, k: nat, j: nat)
    | DoWriteReg(c: nat, k: nat, r: nat)
    | DoDispatch(c: nat)
    | DoSupplyGeneric | DoSupplyLs | DoSupplyIo
    | DoExec
    | DoWriteBack(h: nat)
    | DoPartialFlush(h: nat)
    | DoCommit
    | DoInterrupt(c: nat)

  // The order of the stages: results leave the units only to be written back
  // at once, and a register is read before the same or a later micro-op of the
  // instruction redefines it.
  ghost predicate Enabled(s: State, step: Step) {
    && Wf(s)
    && match step
       case DoAlloc(c) => c < |s.decoder|
       case DoDescribe(c, k, _, _, _, _) => c < |s.decoder| && k < |s.decoder[c]|
       case DoReadReg(c, k, r) =>
         && c < |s.decoder| && k < |s.decoder[c]|
         && (r in s.regs[c] ==> forall j :: k <= j < |s.decoder[c]| ==> s.decoder[c][j] != s.regs[c][r])
       case DoLink(c, k, j) => c < |s.decoder| && j < k < |s.decoder[c]| && s.decoder[c][j] != s.decoder[c][k]
       case DoWriteReg(c, k, _) => c < |s.decoder| && k < |s.decoder[c]|
       case DoDispatch(c) => CanDispatch(s, c)
       case DoWriteBack(h) => h in s.response
       case DoPartialFlush(h) => CanFlushOn(s, h)
       case DoCommit => s.response == []
       case DoInterrupt(c) => c < |s.decoder| && s.response == []
       case _ => s.response == []
  }

  ghost function Next(s: State, step: Step): State
    requires Enabled(s, step)
  {
    match step
    case DoAlloc(c) => Alloc(s, c)
    case DoDescribe(c, k, kind, serial, foresight, latency) => Describe(s, c, k, kind, serial, foresight, latency)
    case DoReadReg(c, k, r) => ReadReg(s, c, k, r)
    case DoLink(c, k, j) => LinkMicrocode(s, c, k, j)
    case DoWriteReg(c, k, r) => WriteReg(s, c, k, r)
    case DoDispatch(c) => Dispatch(s, c)
    case DoSupplyGeneric => SupplyGeneric(s, 0)
    case DoSupplyLs => SupplyLs(s, 0)
    case DoSupplyIo => SupplyIo(s, 0)
    case DoExec => Exec(s, 0)
    case DoWriteBack(h) => WriteBack(s, h)
    case DoPartialFlush(h) => PartialFlush(s, h)
    case DoCommit => Commit(s)
    case DoInterrupt(c) => Flush(s, c)
  }

  // A partial flush leaves no orphan behind.
  ghost predicate Guarded(s: State, step: Step)
    requires Enabled(s, step)
  {
    step.DoPartialFlush? ==> NoOrphans(s, step.h)
  }

  // The state the constructors leave.
  ghost predicate Initial(s: State) {
    && Wf(s)
    && s.supplier == seq(|s.insts|, i => i)
    && (forall c :: 0 <= c < |s.decoder| ==> s.decoder[c] == [] && s.regs[c] == map[] && !s.writeReady[c] && !s.mustIssue[c])
    && s.rob == [] && s.generic == [] && s.ls == [] && s.io == [] && s.response == [] && s.trace == []
    && forall u :: 0 <= u < |s.units| ==> s.units[u].busy.None?
  }

  ghost predicate Run(states: seq<State>, steps: seq<Step>) {
    && |states| == |steps| + 1 && Initial(states[0])
    && forall i :: 0 <= i < |steps| ==> Enabled(states[i], steps[i]) && states[i + 1] == Next(states[i], steps[i])
  }

  ghost predicate GuardedRun(states: seq<State>, steps: seq<Step>) {
    Run(states, steps) && forall i :: 0 <= i < |steps| ==> Guarded(states[i], steps[i])
  }

  lemma InitialInv(s: State)
    requires Initial(s)
    ensures Inv(s)
  {
    assert LiveSet(s) == {};
    forall c | 0 <= c < |s.decoder| ensures DecoderIdsOk(s, c) {}
    forall h | 0 <= h < |s.insts| ensures h in s.supplier { assert s.supplier[h] == h; }
    assert GraphOk(s) by {
      assert PoolOk(s);
      assert Edges(s.insts, {});
    }
  }

  lemma ReadsOlder(s: State, c: nat, k: nat, r: nat)
    requires Inv(s) && c < |s.decoder| && k < |s.decoder[c]|
    requires r in s.regs[c] && forall j :: k <= j < |s.decoder[c]| ==> s.decoder[c][j] != s.regs[c][r]
    ensures s.insts[s.regs[c][r]].id < s.insts[s.decoder[c][k]].id
  {
    var g := s.regs[c][r];
    assert Live(s, g) && s.insts[g].cpu == c by { assert RegsOk(s); }
    assert DecoderIdsOk(s, c);
    DecoderYounger(s, c);
    if g in s.decoder[c] {
      var j :| 0 <= j < |s.decoder[c]| && s.decoder[c][j] == g;
    }
  }

  lemma ReadKeepsInv(s: State, c: nat, k: nat, r: nat)
    requires Inv(s) && Enabled(s, DoReadReg(c, k, r))
    ensures Inv(Next(s, DoReadReg(c, k, r)))
  {
    hide Inv, ReadReg;
    assert Inv(s) ==> Wf(s) by { InvWf(s); }
    if r in s.regs[c] { ReadsOlder(s, c, k, r); }
    ReadRegKeepsInv(s, c, k, r);
  }

  lemma InvWf(s: State)
    ensures Inv(s) ==> Wf(s)
  {
  }

  // Every operation keeps the invariant; only the partial flush needs a guard.
  lemma StepKeepsInv(s: State, step: Step)
    requires Inv(s) && Enabled(s, step) && Guarded(s, step)
    ensures Inv(Next(s, step))
  {
    hide Inv, Wf, NoOrphans;
    match step
    case DoAlloc(c) => AllocKeepsInv(s, c);
    case DoDescribe(c, k, kind, serial, foresight, latency) => DescribeKeepsInv(s, c, k, kind, serial, foresight, latency);
    case DoReadReg(c, k, r) => ReadKeepsInv(s, c, k, r);
    case DoLink(c, k, j) => LinkMicrocodeKeepsInv(s, c, k, j);
    case DoWriteReg(c, k, r) => WriteRegKeepsInv(s, c, k, r);
    case DoDispatch(c) => DispatchKeepsInv(s, c);
    case DoSupplyGeneric => SupplyGenericKeepsInv(s, 0);
    case DoSupplyLs => SupplyLsKeepsInv(s, 0);
    case DoSupplyIo => SupplyIoKeepsInv(s, 0);
    case DoExec => ExecKeepsInv(s, 0);
    case DoWriteBack(h) => WriteBackKeepsInv(s, h);
    case DoPartialFlush(h) => PartialFlushKeepsInv(s, h);
    case DoCommit => CommitKeepsInv(s);
    case DoInterrupt(c) => FlushKeepsInv(s, c);
  }

  lemma {:induction false} RunKeepsInv(states: seq<State>, steps: seq<Step>, i: nat)
    requires GuardedRun(states, steps) && i < |states|
    ensures Inv(states[i])
  {
    if i == 0 {
      InitialInv(states[0]);
    } else {
      RunKeepsInv(states, steps, i - 1);
      StepKeepsInv(states[i - 1], steps[i - 1]);
    }
  }

  // ---- the oldest instruction ----

  lemma NotAllNull(links: seq<Link>)
    requires Nulls(links) < |links|
    ensures exists i :: 0 <= i < |links| && links[i].peer.Some?
  {
    NullsBound(links);
  }

  lemma InvNotDeadlocked(s: State)
    requires Inv(s)
    ensures !Deadlocked(s)
  {
    if Deadlocked(s) {
      var h := s.rob[0];
      assert h in s.rob && h in LiveSet(s) && RobStatusOk(s.insts[h]);
      NotAllNull(s.insts[h].depIn);
      var i :| 0 <= i < |s.insts[h].depIn| && s.insts[h].depIn[i].peer.Some?;
      assert InLinkOk(s.insts, LiveSet(s), h, i);
      HeadIsOldest(s, s.insts[h].depIn[i].peer.value);
      assert false;
    }
  }

  // In every run whose partial flushes leave no orphans, commit's deadlock
  // check never fires.
  lemma NeverDeadlocked(states: seq<State>, steps: seq<Step>)
    requires GuardedRun(states, steps)
    ensures forall i :: 0 <= i < |states| ==> Wf(states[i]) && !Deadlocked(states[i])
  {
    forall i | 0 <= i < |states|
      ensures Wf(states[i]) && !Deadlocked(states[i])
    {
      RunKeepsInv(states, steps, i);
      InvNotDeadlocked(states[i]);
    }
  }
}
