// The units and the queues that feed them: nothing that executes is lost, an
// instruction executes as long as its latency says, no queue overflows, and no
// ready instruction waits while a unit for it is idle.
module PipelineUnits {
  import opened Common
  import opened PipelineState
  import opened PipelineSteps
  import opened PipelineInvariant
  import opened PipelineDecode
  import opened PipelineDispatch
  import opened PipelineWriteBack
  import opened PipelineSquash
  import opened PipelineFlush
  import opened PipelinePartial
  import opened PipelineRuns

  // ---- one cycle of execution ----

  function Ticked(x: Unit, insts: seq<Inst>): Unit
    requires x.busy.Some? ==> x.busy.value < |insts|
  {
    if x.busy.None? then x
    else Unit(x.kinds, if x.cycles >= insts[x.busy.value].latency then None else x.busy, x.cycles + 1)
  }

  // The instructions that reach their latency in this cycle, in unit order.
  function Finishing(units: seq<Unit>, insts: seq<Inst>): (q: seq<nat>)
    requires UnitsInRange(units, |insts|)
    ensures forall h :: h in q <==>
      exists u :: 0 <= u < |units| && units[u].busy == Some(h) && h < |insts| && units[u].cycles >= insts[h].latency
  {
    if units == [] then []
    else
      var x, rest := units[0], Finishing(units[1..], insts);
      if x.busy.Some? && x.cycles >= insts[x.busy.value].latency then [x.busy.value] + rest else rest
  }

  function Leaver(x: Unit, insts: seq<Inst>): seq<nat>
    requires x.busy.Some? ==> x.busy.value < |insts|
  {
    if x.busy.Some? && x.cycles >= insts[x.busy.value].latency then [x.busy.value] else []
  }

  lemma FinishingFrom(units: seq<Unit>, u: nat, insts: seq<Inst>)
    requires UnitsInRange(units, |insts|) && u < |units|
    ensures Finishing(units[u..], insts) == Leaver(units[u], insts) + Finishing(units[u + 1..], insts)
  {
    assert units[u..][1..] == units[u + 1..];
  }

  lemma ExecUnitExactly(s: State, u: nat)
    requires Wf(s) && u < |s.units| && s.units[u].busy.Some?
    ensures
      var t := ExecUnit(s, u);
      && Wf(t) && Exec(s, u) == Exec(t, u + 1)
      && t == s.(units := s.units[u := Ticked(s.units[u], s.insts)], response := s.response + Leaver(s.units[u], s.insts))
  {
    assert s.response + [] == s.response;
  }

  lemma {:induction false} ExecFrom(s: State, u: nat)
    requires Wf(s) && u <= |s.units|
    ensures
      var t := Exec(s, u);
      && t == s.(units := t.units, response := s.response + Finishing(s.units[u..], s.insts))
      && |t.units| == |s.units| && (forall v :: 0 <= v < u ==> t.units[v] == s.units[v])
      && (forall v :: u <= v < |s.units| ==> t.units[v] == Ticked(s.units[v], s.insts))
    decreases |s.units| - u
  {
    hide Finishing, ExecUnit;
    if u == |s.units| {
      NoneFinishing(s);
    } else {
      FinishingFrom(s.units, u, s.insts);
      if s.units[u].busy.None? {
        ExecFrom(s, u + 1);
      } else {
        var t := ExecUnit(s, u);
        ExecUnitExactly(s, u);
        ExecFrom(t, u + 1);
        assert t.units[u + 1..] == s.units[u + 1..];
      }
    }
  }

  lemma NoneFinishing(s: State)
    requires Wf(s)
    ensures s.response + Finishing(s.units[|s.units|..], s.insts) == s.response
  {
  }

  // Each unit counts its cycle; those at their latency become idle, and hand
  // their instruction to the response.
  lemma ExecExactly(s: State)
    requires Wf(s)
    ensures
      var t := Exec(s, 0);
      && t == s.(units := t.units, response := s.response + Finishing(s.units, s.insts))
      && |t.units| == |s.units| && forall u :: 0 <= u < |s.units| ==> t.units[u] == Ticked(s.units[u], s.insts)
  {
    hide Exec, Finishing;
    ExecFrom(s, 0);
    assert s.units[0..] == s.units;
  }

  // ---- what executes is in a unit, or has just left it ----

  ghost predicate InUnit(s: State, h: nat) {
    exists u :: 0 <= u < |s.units| && s.units[u].busy == Some(h)
  }

  ghost predicate ExecutingOk(s: State)
    requires Wf(s)
  {
    forall h :: h in s.rob && s.insts[h].status == Executing ==> InUnit(s, h) || h in s.response
  }

  // What executes in t executed in s, and kept its unit.
  ghost predicate KeepsExecuting(s: State, t: State)
    requires Wf(s) && Wf(t)
  {
    && |t.units| == |s.units|
    && forall h :: h in t.rob && t.insts[h].status == Executing ==>
      && h in s.rob && s.insts[h].status == Executing && (h in s.response ==> h in t.response)
      && forall u :: 0 <= u < |s.units| && s.units[u].busy == Some(h) ==> t.units[u].busy == Some(h)
  }

  lemma ExecutingFrame(s: State, t: State)
    requires Wf(s) && Wf(t) && ExecutingOk(s) && KeepsExecuting(s, t)
    ensures ExecutingOk(t)
  {
    forall h | h in t.rob && t.insts[h].status == Executing
      ensures InUnit(t, h) || h in t.response
    {
      if u :| 0 <= u < |s.units| && s.units[u].busy == Some(h) { assert t.units[u].busy == Some(h); }
    }
  }

  lemma EntryKeepsExecuting(s: State, step: Step)
    requires Inv(s) && Enabled(s, step) && (step.DoDescribe? || step.DoReadReg? || step.DoLink? || step.DoWriteReg?)
    ensures KeepsExecuting(s, Next(s, step))
  {
    hide IssueOk, IdsOk, Edges, CountsOk, StatusOk, RegsOk;
    match step
    case DoDescribe(c, k, _, _, _, _) => DecoderEntryOutsideRob(s, c, k);
    case DoReadReg(c, k, _) => DecoderEntryOutsideRob(s, c, k);
    case DoLink(c, k, _) => DecoderEntryOutsideRob(s, c, k);
    case DoWriteReg(c, k, _) => DecoderEntryOutsideRob(s, c, k);
  }

  lemma AllocKeepsExecuting(s: State, c: nat)
    requires Wf(s) && PoolOk(s) && c < |s.decoder|
    ensures KeepsExecuting(s, Alloc(s, c))
  {
    if s.supplier != [] { AllocPool(s, c); }
  }

  lemma DispatchKeepsExecuting(s: State, c: nat)
    requires Wf(s) && PoolOk(s) && CanDispatch(s, c)
    ensures KeepsExecuting(s, Dispatch(s, c))
  {
    DecoderEntryOutsideRob(s, c, 0);
  }

  lemma StartExecuting(s: State, h: nat, u: nat, t: State)
    requires Wf(s) && ExecutingOk(s) && h < |s.insts| && u < |s.units| && s.units[u].busy.None?
    requires Wf(t) && t == Start(s, h, u).(writeReady := t.writeReady, mustIssue := t.mustIssue)
    ensures ExecutingOk(t)
  {
    forall g | g in t.rob && t.insts[g].status == Executing
      ensures InUnit(t, g) || g in t.response
    {
      if g == h {
        assert t.units[u].busy == Some(h);
      } else if v :| 0 <= v < |s.units| && s.units[v].busy == Some(g) {
        assert t.units[v].busy == Some(g);
      }
    }
  }

  lemma {:induction false} SupplyGenericExecuting(s: State, i: nat)
    requires Wf(s) && ExecutingOk(s) && i <= |s.generic|
    ensures ExecutingOk(SupplyGeneric(s, i))
    decreases |s.generic| - i
  {
    hide ExecutingOk;
    if i < |s.generic| {
      var h := s.generic[i];
      var u := FreeUnit(s.units, s.insts[h].kind);
      if s.insts[h].status == DepReady && u.Some? {
        StartExecuting(s, h, u.value, Start(s, h, u.value));
        SupplyGenericExecuting(Start(s, h, u.value), i + 1);
      } else {
        SupplyGenericExecuting(s, i + 1);
      }
    }
  }

  lemma {:induction false} SupplyLsExecuting(s: State, i: nat)
    requires Wf(s) && ExecutingOk(s) && i <= |s.ls|
    ensures ExecutingOk(SupplyLs(s, i))
    decreases |s.ls| - i
  {
    hide ExecutingOk;
    if i < |s.ls| {
      var h := s.ls[i];
      var x := s.insts[h];
      var u := FreeUnit(s.units, x.kind);
      if x.kind == Store && !s.writeReady[x.cpu] {
        SupplyLsExecuting(s, i + 1);
      } else if x.status != DepReady {
        SupplyLsExecuting(s, i + 1);
      } else if u.Some? {
        var t := Start(s, h, u.value).(writeReady := s.writeReady[x.cpu := false]);
        StartExecuting(s, h, u.value, t);
        SupplyLsExecuting(t, i + 1);
      }
    }
  }

  lemma {:induction false} SupplyIoExecuting(s: State, i: nat)
    requires Wf(s) && ExecutingOk(s) && i <= |s.io|
    ensures ExecutingOk(SupplyIo(s, i))
    decreases |s.io| - i
  {
    hide ExecutingOk;
    if i < |s.io| {
      var h := s.io[i];
      var x := s.insts[h];
      var u := FreeUnit(s.units, x.kind);
      if !s.mustIssue[x.cpu] {
        SupplyIoExecuting(s, i + 1);
      } else if u.Some? {
        StartExecuting(s, h, u.value, Start(s, h, u.value).(mustIssue := s.mustIssue[x.cpu := false]));
      }
    }
  }

  lemma ExecExecuting(s: State)
    requires Wf(s) && ExecutingOk(s)
    ensures ExecutingOk(Exec(s, 0))
  {
    hide Exec;
    ExecExactly(s);
    var t := Exec(s, 0);
    forall h | h in t.rob && t.insts[h].status == Executing
      ensures InUnit(t, h) || h in t.response
    {
      if h !in s.response {
        var u :| 0 <= u < |s.units| && s.units[u].busy == Some(h);
        if s.units[u].cycles >= s.insts[h].latency {
          assert h in Finishing(s.units, s.insts);
        } else {
          assert t.units[u].busy == Some(h);
        }
      }
    }
  }

  lemma WriteBackExecuting(s: State, h: nat)
    requires Inv(s) && h in s.response
    ensures KeepsExecuting(s, WriteBack(s, h))
  {
    hide ResolveFrom, Without;
    var t := WriteBack(s, h);
    assert h in s.rob && s.insts[h].status == Executing;
    WriteBackGraphLinks(s, h);
  }

  lemma SquashExecuting(s: State, t: State, c: nat, from: nat, drop: bool)
    requires Wf(s) && Wf(t) && Squashing(s, t, c, from, drop)
    ensures KeepsExecuting(s, t)
  {
  }

  lemma {:induction false} CommitExecuting(s: State)
    requires Wf(s) && ExecutingOk(s)
    ensures ExecutingOk(Commit(s))
    decreases |s.rob|
  {
    hide ExecutingOk, Flush;
    if s.rob != [] {
      var x := s.insts[s.rob[0]];
      if x.status == Ready {
        if FlushesAtCommit(x) {
          var t := s.(trace := s.trace + [Committed(x.cpu, x.id)]);
          ExecutingFrame(s, t);
          FlushSquashes(t, x.cpu);
          SquashExecuting(t, Flush(t, x.cpu), x.cpu, 0, true);
          ExecutingFrame(t, Flush(t, x.cpu));
        } else {
          ExecutingFrame(s, Retire(s));
          CommitExecuting(Retire(s));
        }
      } else if x.status == DepReady {
        ExecutingFrame(s, Arrived(s, s.rob[0]));
      }
    }
  }

  lemma DecodeExecuting(s: State, step: Step)
    requires Inv(s) && ExecutingOk(s) && Enabled(s, step)
    requires step.DoAlloc? || step.DoDescribe? || step.DoReadReg? || step.DoLink? || step.DoWriteReg? || step.DoDispatch?
    ensures ExecutingOk(Next(s, step))
  {
    hide KeepsExecuting, ExecutingOk, IssueOk;
    match step {
      case DoAlloc(c) => AllocKeepsExecuting(s, c);
      case DoDispatch(c) => DispatchKeepsExecuting(s, c);
      case _ => EntryKeepsExecuting(s, step);
    }
    ExecutingFrame(s, Next(s, step));
  }

  lemma LeaveExecuting(s: State, step: Step)
    requires Inv(s) && ExecutingOk(s) && Enabled(s, step)
    requires step.DoWriteBack? || step.DoPartialFlush? || step.DoInterrupt?
    ensures ExecutingOk(Next(s, step))
  {
    hide KeepsExecuting, ExecutingOk, Flush, PartialFlush, WriteBack, Squashing;
    match step {
      case DoWriteBack(h) => WriteBackExecuting(s, h);
      case DoPartialFlush(h) =>
        PartialSquashes(s, h);
        SquashExecuting(s, PartialFlush(s, h), s.insts[h].cpu, s.insts[h].id + 1, DropsDecoder(s.insts[h]));
      case DoInterrupt(c) =>
        FlushSquashes(s, c);
        SquashExecuting(s, Flush(s, c), c, 0, true);
    }
    ExecutingFrame(s, Next(s, step));
  }

  lemma StepKeepsExecuting(s: State, step: Step)
    requires Inv(s) && ExecutingOk(s) && Enabled(s, step)
    ensures ExecutingOk(Next(s, step))
  {
    hide ExecutingOk, GraphOk, IssueOk;
    match step
    case DoSupplyGeneric => SupplyGenericExecuting(s, 0);
    case DoSupplyLs => SupplyLsExecuting(s, 0);
    case DoSupplyIo => SupplyIoExecuting(s, 0);
    case DoExec => ExecExecuting(s);
    case DoCommit => CommitExecuting(s);
    case DoWriteBack(_) => LeaveExecuting(s, step);
    case DoPartialFlush(_) => LeaveExecuting(s, step);
    case DoInterrupt(_) => LeaveExecuting(s, step);
    case _ => DecodeExecuting(s, step);
  }

  // In every run whose partial flushes leave no orphans, an instruction that
  // executes is in a unit, or has left it for the response.
  lemma {:induction false} NothingLost(states: seq<State>, steps: seq<Step>, i: nat)
    requires GuardedRun(states, steps) && i < |states|
    ensures Wf(states[i]) && ExecutingOk(states[i])
  {
    hide ExecutingOk, Inv, Next;
    RunKeepsInv(states, steps, i);
    InvWf(states[i]);
    if i == 0 {
      NothingExecutes(states[0]);
    } else {
      RunKeepsInv(states, steps, i - 1);
      NothingLost(states, steps, i - 1);
      StepKeepsExecuting(states[i - 1], steps[i - 1]);
    }
  }

  lemma NothingExecutes(s: State)
    requires Initial(s)
    ensures ExecutingOk(s)
  {
  }

  // ---- how long it executes ----

  // What a step does to a unit that is busy.
  ghost predicate UnitGoesOn(s: State, t: State, step: Step, u: nat)
    requires Wf(s) && u < |s.units| == |t.units|
  {
    match step
    case DoExec => t.units[u] == Ticked(s.units[u], s.insts)
    case DoPartialFlush(_) => t.units[u] == s.units[u] || t.units[u].busy == None
    case DoCommit => t.units[u] == s.units[u] || t.units[u].busy == None
    case DoInterrupt(_) => t.units[u] == s.units[u] || t.units[u].busy == None
    case _ => t.units[u] == s.units[u]
  }

  ghost predicate SameQueues(s: State, t: State) {
    && t.generic == s.generic && t.ls == s.ls && t.io == s.io
    && t.genericCap == s.genericCap && t.lsCap == s.lsCap && t.ioCap == s.ioCap
  }

  // Supplying the units disturbs no busy one, and of instructions changes
  // nothing but the status.
  ghost predicate SuppliesOnly(s: State, t: State) {
    && |t.units| == |s.units| && |t.insts| == |s.insts| && t.rob == s.rob && SameQueues(s, t)
    && (forall u :: 0 <= u < |s.units| && s.units[u].busy.Some? ==> t.units[u] == s.units[u])
    && forall h :: 0 <= h < |s.insts| ==> t.insts[h] == s.insts[h].(status := t.insts[h].status)
  }

  lemma SuppliesTwice(s: State, t: State, u: State)
    requires SuppliesOnly(s, t) && SuppliesOnly(t, u)
    ensures SuppliesOnly(s, u)
  {
  }

  lemma SuppliesNothing(s: State)
    ensures SuppliesOnly(s, s)
  {
  }

  lemma StartSupplies(s: State, h: nat, v: nat, t: State)
    requires Wf(s) && h < |s.insts| && v < |s.units| && s.units[v].busy.None?
    requires t == Start(s, h, v).(writeReady := t.writeReady, mustIssue := t.mustIssue)
    ensures SuppliesOnly(s, t)
  {
  }

  lemma {:induction false} SupplyGenericOnly(s: State, i: nat)
    requires Wf(s) && i <= |s.generic|
    ensures SuppliesOnly(s, SupplyGeneric(s, i))
    decreases |s.generic| - i
  {
    hide SuppliesOnly;
    SuppliesNothing(s);
    if i < |s.generic| {
      var h := s.generic[i];
      var v := FreeUnit(s.units, s.insts[h].kind);
      if s.insts[h].status == DepReady && v.Some? {
        var t := Start(s, h, v.value);
        StartSupplies(s, h, v.value, t);
        SupplyGenericOnly(t, i + 1);
        SuppliesTwice(s, t, SupplyGeneric(t, i + 1));
      } else {
        SupplyGenericOnly(s, i + 1);
      }
    }
  }

  lemma {:induction false} SupplyLsOnly(s: State, i: nat)
    requires Wf(s) && i <= |s.ls|
    ensures SuppliesOnly(s, SupplyLs(s, i))
    decreases |s.ls| - i
  {
    hide SuppliesOnly;
    SuppliesNothing(s);
    if i < |s.ls| {
      var h := s.ls[i];
      var x := s.insts[h];
      var v := FreeUnit(s.units, x.kind);
      if x.kind == Store && !s.writeReady[x.cpu] {
        SupplyLsOnly(s, i + 1);
      } else if x.status != DepReady {
        SupplyLsOnly(s, i + 1);
      } else if v.Some? {
        var t := Start(s, h, v.value).(writeReady := s.writeReady[x.cpu := false]);
        StartSupplies(s, h, v.value, t);
        SupplyLsOnly(t, i + 1);
        SuppliesTwice(s, t, SupplyLs(t, i + 1));
      }
    }
  }

  lemma {:induction false} SupplyIoOnly(s: State, i: nat)
    requires Wf(s) && i <= |s.io|
    ensures SuppliesOnly(s, SupplyIo(s, i))
    decreases |s.io| - i
  {
    hide SuppliesOnly;
    SuppliesNothing(s);
    if i < |s.io| {
      var h := s.io[i];
      var x := s.insts[h];
      var v := FreeUnit(s.units, x.kind);
      if !s.mustIssue[x.cpu] {
        SupplyIoOnly(s, i + 1);
      } else if v.Some? {
        StartSupplies(s, h, v.value, Start(s, h, v.value).(mustIssue := s.mustIssue[x.cpu := false]));
      }
    }
  }

  lemma {:induction false} CommitUnits(s: State, u: nat)
    requires Wf(s) && u < |s.units|
    ensures |Commit(s).units| == |s.units|
    ensures Commit(s).units[u] == s.units[u] || Commit(s).units[u] == s.units[u].(busy := None)
    decreases |s.rob|
  {
    if s.rob != [] && s.insts[s.rob[0]].status == Ready && !FlushesAtCommit(s.insts[s.rob[0]]) {
      CommitUnits(Retire(s), u);
    }
  }

  lemma UnitsGoOn(s: State, step: Step, u: nat)
    requires Enabled(s, step) && u < |s.units| && s.units[u].busy.Some?
    ensures |Next(s, step).units| == |s.units| && UnitGoesOn(s, Next(s, step), step, u)
  {
    hide Exec, SupplyGeneric, SupplyLs, SupplyIo, Commit;
    match step
    case DoSupplyGeneric => SupplyGenericOnly(s, 0);
    case DoSupplyLs => SupplyLsOnly(s, 0);
    case DoSupplyIo => SupplyIoOnly(s, 0);
    case DoExec => ExecExactly(s);
    case DoCommit => CommitUnits(s, u);
    case DoPartialFlush(h) => PartialFields(s, h);
    case _ =>
  }

  // The latency of an instruction in the reorder buffer is fixed.
  ghost predicate SameLatency(s: State, t: State)
    requires Wf(s)
  {
    |t.insts| == |s.insts| && forall h :: h in s.rob ==> t.insts[h].latency == s.insts[h].latency
  }

  lemma {:induction false} CommitLatency(s: State)
    requires Wf(s)
    ensures Commit(s).insts == s.insts
    decreases |s.rob|
  {
    if s.rob != [] && s.insts[s.rob[0]].status == Ready && !FlushesAtCommit(s.insts[s.rob[0]]) {
      CommitLatency(Retire(s));
    }
  }

  lemma PartialFlushLatency(s: State, h: nat)
    requires Wf(s) && h < |s.insts|
    ensures SameLatency(s, PartialFlush(s, h))
  {
    hide SquashBehind;
  }

  lemma DecodeLatency(s: State, step: Step)
    requires Inv(s) && Enabled(s, step)
    requires step.DoAlloc? || step.DoDescribe? || step.DoReadReg? || step.DoLink? || step.DoWriteReg? || step.DoDispatch?
    ensures SameLatency(s, Next(s, step))
  {
    hide IssueOk, IdsOk, Edges, CountsOk, StatusOk, RegsOk;
    match step
    case DoAlloc(c) => if s.supplier != [] { AllocPool(s, c); }
    case DoDescribe(c, k, _, _, _, _) => DecoderEntryOutsideRob(s, c, k);
    case _ =>
  }

  lemma LatencyStays(s: State, step: Step)
    requires Inv(s) && Enabled(s, step)
    ensures SameLatency(s, Next(s, step))
  {
    hide GraphOk, IssueOk, Exec, SupplyGeneric, SupplyLs, SupplyIo, Commit, PartialFlush, Flush, ResolveFrom;
    match step
    case DoSupplyGeneric => SupplyGenericOnly(s, 0);
    case DoSupplyLs => SupplyLsOnly(s, 0);
    case DoSupplyIo => SupplyIoOnly(s, 0);
    case DoExec => ExecExactly(s);
    case DoWriteBack(_) =>
    case DoPartialFlush(h) => PartialFlushLatency(s, h);
    case DoCommit => CommitLatency(s);
    case DoInterrupt(c) => FlushSquashes(s, c);
    case _ => DecodeLatency(s, step);
  }

  function Ticks(steps: seq<Step>): nat {
    if steps == [] then 0 else Ticks(steps[..|steps| - 1]) + if steps[|steps| - 1].DoExec? then 1 else 0
  }

  // Unit u works for h from state i to state j, and started at i.
  ghost predicate Working(states: seq<State>, i: nat, j: nat, u: nat, h: nat) {
    && i <= j < |states|
    && (forall k :: i <= k <= j ==> u < |states[k].units| && states[k].units[u].busy == Some(h))
    && states[i].units[u].cycles == 0
  }

  // In every run whose partial flushes leave no orphans, a unit counts the
  // cycles it has been working for an instruction, and
  lemma {:induction false} UnitCounts(states: seq<State>, steps: seq<Step>, i: nat, j: nat, u: nat, h: nat)
    requires GuardedRun(states, steps) && Working(states, i, j, u, h)
    ensures h < |states[i].insts| == |states[j].insts|
    ensures states[j].insts[h].latency == states[i].insts[h].latency
    ensures states[j].units[u].cycles == Ticks(steps[i..j]) <= states[i].insts[h].latency
    decreases j - i
  {
    hide Next, Inv, Enabled;
    RunKeepsInv(states, steps, j);
    BusyInRob(states[j], u, h);
    if i < j {
      UnitCounts(states, steps, i, j - 1, u, h);
      RunKeepsInv(states, steps, j - 1);
      BusyInRob(states[j - 1], u, h);
      UnitsGoOn(states[j - 1], steps[j - 1], u);
      LatencyStays(states[j - 1], steps[j - 1]);
      assert steps[i..j][..j - i - 1] == steps[i..j - 1];
    }
  }

  lemma BusyInRob(s: State, u: nat, h: nat)
    requires Inv(s) && u < |s.units| && s.units[u].busy == Some(h)
    ensures Wf(s) && h in s.rob && h < |s.insts|
  {
  }

  // hands the instruction over in the execution cycle in which that count has
  // reached its latency, not before; only a flush takes it away earlier.
  lemma FinishesInTime(states: seq<State>, steps: seq<Step>, i: nat, j: nat, u: nat, h: nat)
    requires GuardedRun(states, steps) && Working(states, i, j, u, h) && j < |steps|
    ensures h < |states[i].insts|
    ensures |states[j + 1].units| == |states[j].units|
    ensures steps[j].DoExec? ==>
      if Ticks(steps[i..j]) == states[i].insts[h].latency
      then states[j + 1].units[u].busy.None? && h in states[j + 1].response
      else states[j + 1].units[u].busy == Some(h)
    ensures !steps[j].DoExec? && states[j + 1].units[u].busy != Some(h) ==>
      steps[j].DoPartialFlush? || steps[j].DoCommit? || steps[j].DoInterrupt?
  {
    hide Inv, Exec, Finishing;
    UnitCounts(states, steps, i, j, u, h);
    RunKeepsInv(states, steps, j);
    BusyInRob(states[j], u, h);
    UnitsGoOn(states[j], steps[j], u);
    if steps[j].DoExec? { ExecExactly(states[j]); }
  }
}
