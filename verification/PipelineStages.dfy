// Runs in the order of the stages: src/main.cpp:224-301 and the calls below it.
module PipelineStages {
  import opened PipelineState
  import opened PipelineSteps
  import opened PipelineRuns
  import opened PipelineOrder

  predicate Decodes(step: Step) {
    step.DoAlloc? || step.DoDescribe? || step.DoReadReg? || step.DoLink? || step.DoWriteReg? || step.DoDispatch?
  }

  predicate Results(step: Step) {
    step.DoWriteBack? || step.DoPartialFlush?
  }

  // The decoder of a cpu goes on within a cycle until it has no instruction
  // left, or waits for an unused one, or for a place in a queue.
  ghost predicate Stalled(s: State, c: nat)
    requires Wf(s) && c < |s.decoder|
  {
    s.decoder[c] == [] || s.supplier == [] || QueueFull(s, QueueOf(s.insts[s.decoder[c][0]].kind))
  }

  ghost predicate CycleOver(s: State, last: Step)
    requires Wf(s)
  {
    (last.DoSupplyIo? || Decodes(last)) && forall c :: 0 <= c < |s.decoder| ==> Stalled(s, c)
  }

  // Step b may come directly after a, with s between them: interrupts, commit,
  // execution, then for each cpu its write-backs and at most one partial flush,
  // the three queues, and the decoder of each cpu.
  ghost predicate Follows(s: State, a: Step, b: Step)
    requires Wf(s)
  {
    match a
    case DoInterrupt(c) => b.DoCommit? || (b.DoInterrupt? && c < b.c)
    case DoCommit => b.DoExec?
    case DoExec => b.DoSupplyGeneric? || Results(b)
    case DoWriteBack(h) =>
      b.DoSupplyGeneric? || (Results(b) && h < |s.insts| && b.h < |s.insts| && s.insts[h].cpu <= s.insts[b.h].cpu)
    case DoPartialFlush(h) =>
      b.DoSupplyGeneric? || (Results(b) && h < |s.insts| && b.h < |s.insts| && s.insts[h].cpu < s.insts[b.h].cpu)
    case DoSupplyGeneric => b.DoSupplyLs?
    case DoSupplyLs => b.DoSupplyIo?
    case DoSupplyIo => Decodes(b) || (CycleOver(s, a) && Begins(b))
    case _ => (Decodes(b) && a.c <= b.c) || (CycleOver(s, a) && Begins(b))
  }

  predicate Begins(step: Step) {
    step.DoInterrupt? || step.DoCommit?
  }

  ghost predicate StagedRun(states: seq<State>, steps: seq<Step>) {
    && Run(states, steps) && steps != [] && Begins(steps[0])
    && forall i :: 0 < i < |steps| ==> Wf(states[i]) && Follows(states[i], steps[i - 1], steps[i])
  }

  // Some run in stage order ends in s with that step.
  ghost predicate Staged(s: State, last: Step) {
    exists states, steps :: StagedRun(states, steps) && states[|states| - 1] == s && steps[|steps| - 1] == last
  }

  lemma StagedFirst(s: State)
    requires Initial(s)
    ensures Staged(s, DoCommit) && Wf(s)
  {
    assert StagedRun([s, s], [DoCommit]);
  }

  lemma StagedStep(s: State, last: Step, step: Step, t: State)
    requires Staged(s, last) && Enabled(s, step) && Follows(s, last, step) && t == Next(s, step)
    ensures Staged(t, step) && Wf(t)
  {
    hide Next, Enabled, Follows, Wf;
    var states, steps :| StagedRun(states, steps) && states[|states| - 1] == s && steps[|steps| - 1] == last;
    assert Wf(s) && Wf(t) by { StepWf(s, step); }
    assert StagedRun(states + [t], steps + [step]);
  }

  lemma StepWf(s: State, step: Step)
    requires Enabled(s, step)
    ensures Wf(s) && Wf(Next(s, step))
  {
  }

  // The next cycle commits and executes.
  lemma CycleBegins(s: State, last: Step, t: State, u: State)
    requires Staged(s, last) && Wf(s) && CycleOver(s, last) && s.response == []
    requires t == Commit(s) && t.response == [] && u == Exec(t, 0)
    ensures Staged(u, DoExec) && Wf(u)
  {
    hide Staged, Commit, Exec;
    StagedStep(s, last, DoCommit, t);
    StagedStep(t, DoCommit, DoExec, u);
  }

  // After the write-backs the three queues supply the units.
  lemma CycleIssues(s: State, last: Step, t: State)
    requires Staged(s, last) && Wf(s) && (last.DoExec? || Results(last)) && s.response == []
    requires t == SupplyIo(SupplyLs(SupplyGeneric(s, 0), 0), 0)
    ensures Staged(t, DoSupplyIo) && Wf(t)
  {
    hide Staged, SupplyGeneric, SupplyLs, SupplyIo;
    var u := SupplyGeneric(s, 0);
    var v := SupplyLs(u, 0);
    SupplyGenericInPlace(s, 0);
    SupplyLsInPlace(u, 0);
    StagedStep(s, last, DoSupplyGeneric, u);
    StagedStep(u, DoSupplyGeneric, DoSupplyLs, v);
    StagedStep(v, DoSupplyLs, DoSupplyIo, t);
  }
}
