// What the invariant means for whole runs: conservation of the pool, order of
// commits, and non-speculative stores.
module PipelineTheorems {
  import opened Common
  import opened PipelineState
  import opened PipelineSteps
  import opened PipelineInvariant
  import opened PipelineIssue
  import opened PipelineSquash
  import opened PipelineFlush
  import opened PipelinePartial
  import opened PipelineOrphans
  import opened PipelineRuns
  import opened PipelineOrder

  // ---- conservation ----

  function Elements(q: seq<nat>): set<nat> {
    set h | h in q
  }

  lemma DistinctSize(q: seq<nat>)
    requires NoDuplicates(q)
    ensures |Elements(q)| == |q|
  {
    if q != [] {
      DistinctSize(q[1..]);
      assert Elements(q) == {q[0]} + Elements(q[1..]);
      assert q[0] !in q[1..];
    }
  }

  // All decoder entries, cpu after cpu.
  function Buffered(decoder: seq<seq<nat>>): seq<nat> {
    if decoder == [] then [] else decoder[0] + Buffered(decoder[1..])
  }

  lemma BufferedMembers(decoder: seq<seq<nat>>, h: nat)
    ensures h in Buffered(decoder) <==> exists c :: 0 <= c < |decoder| && h in decoder[c]
  {
    if decoder != [] {
      BufferedMembers(decoder[1..], h);
      if c :| 0 <= c < |decoder[1..]| && h in decoder[1..][c] { assert h in decoder[c + 1]; }
      if c :| 0 <= c < |decoder| && h in decoder[c] {
        if c > 0 { assert h in decoder[1..][c - 1]; }
      }
    }
  }

  lemma BufferedDistinct(decoder: seq<seq<nat>>)
    requires forall c :: 0 <= c < |decoder| ==> NoDuplicates(decoder[c])
    requires forall c, d, h :: 0 <= c < d < |decoder| && h in decoder[c] ==> h !in decoder[d]
    ensures NoDuplicates(Buffered(decoder))
  {
    if decoder != [] {
      var rest := decoder[1..];
      forall c, d, h | 0 <= c < d < |rest| && h in rest[c] ensures h !in rest[d] {
        assert h in decoder[c + 1];
      }
      BufferedDistinct(rest);
      forall i | 0 <= i < |Buffered(rest)| ensures Buffered(rest)[i] !in decoder[0] {
        BufferedMembers(rest, Buffered(rest)[i]);
      }
      ConcatDistinct(decoder[0], Buffered(rest));
    }
  }

  function AllPlaces(s: State): seq<nat> {
    s.supplier + s.rob + Buffered(s.decoder)
  }

  lemma DecoderCpu(s: State)
    requires Wf(s) && PoolOk(s)
    ensures forall c, h :: 0 <= c < |s.decoder| && h in s.decoder[c] ==>
      h < |s.insts| && s.insts[h].cpu == c && Live(s, h) && h !in s.rob
  {
    forall c, h | 0 <= c < |s.decoder| && h in s.decoder[c]
      ensures h < |s.insts| && s.insts[h].cpu == c && Live(s, h) && h !in s.rob
    {
      DecoderMember(s, c, h);
    }
  }

  lemma DecodersDisjoint(s: State)
    requires Wf(s) && PoolOk(s) && IdsOk(s)
    ensures NoDuplicates(Buffered(s.decoder))
  {
    forall c | 0 <= c < |s.decoder| ensures NoDuplicates(s.decoder[c]) {
      assert DecoderIdsOk(s, c);
    }
    DecoderCpu(s);
    BufferedDistinct(s.decoder);
  }

  lemma BufferedLive(s: State, h: nat)
    requires Wf(s) && PoolOk(s) && h < |s.insts|
    ensures h in Buffered(s.decoder) <==> Live(s, h) && h !in s.rob
  {
    BufferedMembers(s.decoder, h);
    DecoderCpu(s);
    assert h in s.decoder[s.insts[h].cpu] ==> h in Buffered(s.decoder);
  }

  // Each instruction of the pool is in exactly one place.
  lemma PlacesPartition(s: State)
    requires Wf(s) && PoolOk(s) && IdsOk(s)
    ensures NoDuplicates(AllPlaces(s))
    ensures forall h :: h in AllPlaces(s) ==> h < |s.insts|
    ensures forall h :: 0 <= h < |s.insts| ==> h in AllPlaces(s)
  {
    forall h | 0 <= h < |s.insts| ensures h in AllPlaces(s) { BufferedLive(s, h); }
    forall h | h in AllPlaces(s) ensures h < |s.insts| {
      if h in Buffered(s.decoder) { BufferedMembers(s.decoder, h); }
    }
    DecodersDisjoint(s);
    forall i | 0 <= i < |s.rob| ensures s.rob[i] !in s.supplier { assert s.rob[i] in s.rob && Live(s, s.rob[i]); }
    ConcatDistinct(s.supplier, s.rob);
    var b := Buffered(s.decoder);
    forall i | 0 <= i < |b| ensures b[i] !in s.supplier + s.rob {
      assert b[i] in AllPlaces(s) && b[i] in b;
      BufferedLive(s, b[i]);
    }
    ConcatDistinct(s.supplier + s.rob, b);
  }

  function Handles(n: nat): (r: set<nat>)
    ensures |r| == n
    ensures forall h: nat :: h in r <==> h < n
  {
    if n == 0 then {} else Handles(n - 1) + {n - 1}
  }

  // In every run the total never changes, so a list with room for the whole pool never
  // refuses an instruction.
  lemma PoolConserved(states: seq<State>, steps: seq<Step>, i: nat)
    requires Run(states, steps) && i < |states|
    ensures NoDuplicates(AllPlaces(states[i]))
    ensures |states[i].supplier| + |states[i].rob| + |Buffered(states[i].decoder)| == |states[i].insts|
  {
    var s := states[i];
    RunKeepsOrder(states, steps, i);
    PlacesPartition(s);
    DistinctSize(AllPlaces(s));
    assert Elements(AllPlaces(s)) == Handles(|s.insts|);
  }

  // ---- history ----

  // In every run, ids of a cpu commit in ascending order, and everything in
  // flight has a greater id than what was committed.
  lemma CommitsInOrder(states: seq<State>, steps: seq<Step>, i: nat)
    requires Run(states, steps) && i < |states|
    ensures Wf(states[i]) && CommitsAscend(states[i].trace)
    ensures forall e, h :: e in states[i].trace && h in LiveSet(states[i]) ==> CommittedBefore(e, states[i].insts[h])
  {
    RunKeepsOrder(states, steps, i);
  }

  ghost predicate IssuesAscend(t: seq<Event>) {
    forall i, j :: 0 <= i < j < |t| && t[i].Issued? && t[j].Issued? && t[i].cpu == t[j].cpu ==>
      Ordered(t[i].kind) && Ordered(t[j].kind) ==> t[i].id < t[j].id
  }

  // In guarded runs, stores and port operations of a cpu are sent to the units
  // in ascending order, and so each of them at most once.
  lemma IssuesInOrder(states: seq<State>, steps: seq<Step>, i: nat)
    requires GuardedRun(states, steps) && i < |states|
    ensures IssuesAscend(states[i].trace)
  {
    RunKeepsInv(states, steps, i);
    assert TraceOrdered(states[i].trace);
  }

  // ---- stores ----

  // Nothing of its cpu is older than h.
  ghost predicate OldestOfItsCpu(s: State, h: nat)
    requires Wf(s) && h < |s.insts|
  {
    Live(s, h) && forall g :: 0 <= g < |s.insts| && Live(s, g) && g != h && s.insts[g].cpu == s.insts[h].cpu ==>
      s.insts[h].id < s.insts[g].id
  }

  // A store or port operation in a functional unit, or done and waiting for
  // commit, is the oldest in-flight instruction of its cpu.
  lemma OrderedExecutesAsOldest(states: seq<State>, steps: seq<Step>, i: nat, h: nat)
    requires GuardedRun(states, steps) && i < |states| && Wf(states[i])
    requires h in states[i].rob && Ordered(states[i].insts[h].kind) && states[i].insts[h].status in {Executing, Ready}
    ensures OldestOfItsCpu(states[i], h)
  {
    var s := states[i];
    RunKeepsInv(states, steps, i);
    assert h == s.rob[0] by { assert HeadsOk(s); }
    forall g | 0 <= g < |s.insts| && Live(s, g) && g != h && s.insts[g].cpu == s.insts[h].cpu
      ensures s.insts[h].id < s.insts[g].id
    {
      assert g in LiveSet(s);
      HeadIsOldest(s, g);
    }
  }

  // Recorded as committed during the step.
  ghost predicate CommittedIn(s: State, t: State, h: nat)
    requires h < |s.insts|
  {
    exists j :: |s.trace| <= j < |t.trace| && t.trace[j] == Committed(s.insts[h].cpu, s.insts[h].id)
  }

  lemma CommitGrowsTrace(s: State)
    requires Wf(s)
    ensures s.trace <= Commit(s).trace
    decreases |s.rob|
  {
    if s.rob != [] && s.insts[s.rob[0]].status == Ready && !FlushesAtCommit(s.insts[s.rob[0]]) {
      CommitGrowsTrace(Retire(s));
    }
  }

  lemma HeadThroughCommit(s: State)
    requires Inv(s) && s.rob != []
    ensures s.rob[0] in Commit(s).rob || CommittedIn(s, Commit(s), s.rob[0])
  {
    var x := s.insts[s.rob[0]];
    if x.status == Ready {
      var j := |s.trace|;
      if !FlushesAtCommit(x) {
        CommitGrowsTrace(Retire(s));
        assert Retire(s).trace[j] == Committed(x.cpu, x.id);
      }
      assert Commit(s).trace[j] == Committed(x.cpu, x.id);
    } else {
      assert s.rob[0] in s.rob;
    }
  }

  lemma {:induction false} ExecRob(s: State, u: nat)
    requires Wf(s) && u <= |s.units|
    ensures Exec(s, u).rob == s.rob
    decreases |s.units| - u
  {
    if u < |s.units| {
      if s.units[u].busy.None? {
        ExecRob(s, u + 1);
      } else {
        var h, n := s.units[u].busy.value, s.units[u].cycles;
        ExecRob(s.(units := s.units[u := s.units[u].(busy := None, cycles := n + 1)], response := s.response + [h]), u + 1);
        ExecRob(s.(units := s.units[u := s.units[u].(cycles := n + 1)]), u + 1);
      }
    }
  }

  lemma HeadThroughPartialFlush(s: State, g: nat)
    requires Inv(s) && CanFlushOn(s, g) && s.rob != []
    ensures s.rob[0] in PartialFlush(s, g).rob
  {
    HeadNotHit(s, g);
    PartialIsFlushed(s, g);
    assert s.rob[0] in s.rob;
  }

  lemma HeadThroughSupply(s: State)
    requires Inv(s)
    ensures SupplyGeneric(s, 0).rob == s.rob && SupplyLs(s, 0).rob == s.rob && SupplyIo(s, 0).rob == s.rob
  {
    assert SupplyGeneric(s, 0).rob == s.rob by { SupplyGenericKeepsInv(s, 0); }
    assert SupplyLs(s, 0).rob == s.rob by { SupplyLsKeepsInv(s, 0); }
    assert SupplyIo(s, 0).rob == s.rob by { SupplyIoKeepsInv(s, 0); }
  }

  // Back in the supply without having been committed.
  ghost predicate SquashedBy(s: State, t: State, h: nat)
    requires h < |s.insts|
  {
    h in t.supplier && h !in t.rob && !CommittedIn(s, t, h)
  }

  // Once issued, a store or port operation is squashed by a step if and only if
  // the step is an external interrupt of its cpu; every other step keeps it or
  // commits it.
  lemma IssuedStoreSquashedExactly(s: State, step: Step, h: nat)
    requires Inv(s) && Enabled(s, step)
    requires h in s.rob && Ordered(s.insts[h].kind) && s.insts[h].status in {Executing, Ready}
    ensures SquashedBy(s, Next(s, step), h) <==> step == DoInterrupt(s.insts[h].cpu)
    ensures step != DoInterrupt(s.insts[h].cpu) ==> h in Next(s, step).rob || CommittedIn(s, Next(s, step), h)
  {
    if step == DoInterrupt(s.insts[h].cpu) {
      InterruptSquashes(s, h);
    } else {
      assert h == s.rob[0] by { assert HeadsOk(s); }
      HeadOutlives(s, step);
    }
  }

  // An external interrupt squashes whatever its cpu has in flight.
  lemma InterruptSquashes(s: State, h: nat)
    requires Wf(s) && h in s.rob
    ensures SquashedBy(s, Flush(s, s.insts[h].cpu), h)
  {
    FlushSquashes(s, s.insts[h].cpu);
  }

  lemma HeadOutlives(s: State, step: Step)
    requires Inv(s) && Enabled(s, step) && s.rob != []
    requires step != DoInterrupt(s.insts[s.rob[0]].cpu)
    ensures s.rob[0] in Next(s, step).rob || CommittedIn(s, Next(s, step), s.rob[0])
  {
    hide GraphOk, IssueOk, Commit, PartialFlush, CommittedIn;
    assert s.rob[0] in s.rob;
    if step.DoSupplyGeneric? || step.DoSupplyLs? || step.DoSupplyIo? {
      HeadThroughSupply(s);
    } else if step.DoExec? {
      ExecRob(s, 0);
    } else if step.DoPartialFlush? {
      HeadThroughPartialFlush(s, step.h);
    } else if step.DoCommit? {
      HeadThroughCommit(s);
    }
  }
}
