// What every run keeps, whatever its partial flushes leave in the dependency
// graph: who is where, and in which order instructions commit.
module PipelineOrder {
  import opened Common
  import opened PipelineState
  import opened PipelineSteps
  import opened PipelineInvariant
  import opened PipelineFrame
  import opened PipelineDecode
  import opened PipelineDispatch
  import opened PipelineIssue
  import opened PipelineSquash
  import opened PipelineFlush
  import opened PipelinePartial
  import opened PipelineRuns

  // Per cpu, committed ids ascend
  ghost predicate CommitsAscend(t: seq<Event>) {
    forall i, j :: 0 <= i < j < |t| && t[i].Committed? && t[j].Committed? && t[i].cpu == t[j].cpu ==> t[i].id < t[j].id
  }

  // and stay below those of the instructions in flight.
  ghost predicate CommittedBefore(e: Event, x: Inst) {
    e.Committed? && e.cpu == x.cpu ==> e.id < x.id
  }

  ghost predicate CommitsOk(s: State)
    requires Wf(s)
  {
    && CommitsAscend(s.trace)
    && (forall e, h :: e in s.trace && h in LiveSet(s) ==> CommittedBefore(e, s.insts[h]))
    && (forall e :: e in s.trace && e.Committed? && e.cpu < |s.nextId| ==> e.id < s.nextId[e.cpu])
  }

  ghost predicate OrderOk(s: State) {
    Wf(s) && PoolOk(s) && IdsOk(s) && CommitsOk(s)
  }

  // ---- steps that move nothing ----

  ghost predicate OnlyIssued(before: seq<Event>, after: seq<Event>) {
    before <= after && forall i :: |before| <= i < |after| ==> after[i].Issued?
  }

  ghost predicate InPlace(s: State, t: State) {
    Wf(s) && Wf(t) && SamePlaces(s, t) && SameIdentity(s.insts, t.insts) && OnlyIssued(s.trace, t.trace)
  }

  lemma InPlaceKeepsOrder(s: State, t: State)
    requires OrderOk(s) && InPlace(s, t)
    ensures OrderOk(t)
  {
    PoolFrame(s, t);
    IdsFrame(s, t);
    forall e | e in t.trace
      ensures e in s.trace || e.Issued?
    {
      var i :| 0 <= i < |t.trace| && t.trace[i] == e;
      if i < |s.trace| { assert s.trace[i] == e; }
    }
    forall e, h | e in t.trace && h in LiveSet(t)
      ensures CommittedBefore(e, t.insts[h])
    {
      if e in s.trace { assert CommittedBefore(e, s.insts[h]); }
    }
    forall i, j | 0 <= i < j < |t.trace| && t.trace[i].Committed? && t.trace[j].Committed? && t.trace[i].cpu == t.trace[j].cpu
      ensures t.trace[i].id < t.trace[j].id
    {
      assert s.trace[i] == t.trace[i] && s.trace[j] == t.trace[j];
    }
  }

  lemma InPlaceTransitive(s: State, t: State, u: State)
    requires InPlace(s, t) && InPlace(t, u)
    ensures InPlace(s, u)
  {
  }

  lemma StartInPlace(s: State, h: nat, u: nat, t: State)
    requires Wf(s) && h < |s.insts| && u < |s.units| && Wf(t)
    requires t == Start(s, h, u).(writeReady := t.writeReady, mustIssue := t.mustIssue)
    ensures InPlace(s, t)
  {
  }

  lemma {:induction false} SupplyGenericInPlace(s: State, i: nat)
    requires Wf(s) && i <= |s.generic|
    ensures InPlace(s, SupplyGeneric(s, i)) && SupplyGeneric(s, i).response == s.response
    decreases |s.generic| - i
  {
    hide InPlace;
    if i == |s.generic| {
      StaysInPlace(s, s);
    } else {
      var h := s.generic[i];
      var u := FreeUnit(s.units, s.insts[h].kind);
      if s.insts[h].status == DepReady && u.Some? {
        var t := Start(s, h, u.value);
        StartInPlace(s, h, u.value, t);
        SupplyGenericInPlace(t, i + 1);
        InPlaceTransitive(s, t, SupplyGeneric(t, i + 1));
      } else {
        SupplyGenericInPlace(s, i + 1);
      }
    }
  }

  // Units, response, flags and producers may change.
  lemma StaysInPlace(s: State, t: State)
    requires Wf(s) && Wf(t) && SamePlaces(s, t) && SameIdentity(s.insts, t.insts) && s.trace == t.trace
    ensures InPlace(s, t)
  {
  }

  lemma {:induction false} SupplyLsInPlace(s: State, i: nat)
    requires Wf(s) && i <= |s.ls|
    ensures InPlace(s, SupplyLs(s, i)) && SupplyLs(s, i).response == s.response
    decreases |s.ls| - i
  {
    hide InPlace;
    if i == |s.ls| {
      StaysInPlace(s, s);
    } else {
      var h := s.ls[i];
      var x := s.insts[h];
      var u := FreeUnit(s.units, x.kind);
      if x.kind == Store && !s.writeReady[x.cpu] {
        SupplyLsInPlace(s, i + 1);
      } else if x.status != DepReady {
        SupplyLsInPlace(s, i + 1);
      } else if u.None? {
        StaysInPlace(s, s);
      } else {
        var t := Start(s, h, u.value).(writeReady := s.writeReady[x.cpu := false]);
        StartInPlace(s, h, u.value, t);
        SupplyLsInPlace(t, i + 1);
        InPlaceTransitive(s, t, SupplyLs(t, i + 1));
      }
    }
  }

  lemma {:induction false} SupplyIoInPlace(s: State, i: nat)
    requires Wf(s) && i <= |s.io|
    ensures InPlace(s, SupplyIo(s, i)) && SupplyIo(s, i).response == s.response
    decreases |s.io| - i
  {
    hide InPlace;
    if i == |s.io| {
      StaysInPlace(s, s);
    } else {
      var h := s.io[i];
      var x := s.insts[h];
      var u := FreeUnit(s.units, x.kind);
      if !s.mustIssue[x.cpu] {
        SupplyIoInPlace(s, i + 1);
      } else if u.None? {
        StaysInPlace(s, s);
      } else {
        StartInPlace(s, h, u.value, Start(s, h, u.value).(mustIssue := s.mustIssue[x.cpu := false]));
      }
    }
  }

  lemma {:induction false} ExecInPlace(s: State, u: nat)
    requires Wf(s) && u <= |s.units|
    ensures InPlace(s, Exec(s, u))
    decreases |s.units| - u
  {
    hide InPlace;
    if u == |s.units| {
      StaysInPlace(s, s);
    } else if s.units[u].busy.None? {
      ExecInPlace(s, u + 1);
    } else {
      var h, n := s.units[u].busy.value, s.units[u].cycles;
      var unit := s.units[u].(cycles := n + 1);
      var t := if n >= s.insts[h].latency then s.(units := s.units[u := unit.(busy := None)], response := s.response + [h])
               else s.(units := s.units[u := unit]);
      UnitWf(s, u, t);
      StaysInPlace(s, t);
      ExecInPlace(t, u + 1);
      InPlaceTransitive(s, t, Exec(t, u + 1));
    }
  }

  lemma UnitWf(s: State, u: nat, t: State)
    requires Wf(s) && u < |s.units| && s.units[u].busy.Some?
    requires t == s.(units := t.units, response := t.response)
    requires |t.units| == |s.units| && forall v :: 0 <= v < |t.units| && t.units[v].busy.Some? ==> t.units[v].busy == s.units[v].busy
    requires t.response == s.response || t.response == s.response + [s.units[u].busy.value]
    ensures Wf(t)
  {
  }

  lemma WriteBackInPlace(s: State, h: nat)
    requires Wf(s) && h in s.response
    ensures InPlace(s, WriteBack(s, h))
  {
    hide ResolveFrom, Without, ForgetProducer;
    StaysInPlace(s, WriteBack(s, h));
  }

  lemma DecodingInPlace(s: State, step: Step)
    requires Enabled(s, step) && (step.DoDescribe? || step.DoReadReg? || step.DoLink? || step.DoWriteReg?)
    ensures InPlace(s, Next(s, step))
  {
    StaysInPlace(s, Next(s, step));
  }

  // ---- steps that move instructions ----

  lemma AllocKeepsOrder(s: State, c: nat)
    requires OrderOk(s) && c < |s.decoder|
    ensures OrderOk(Alloc(s, c))
  {
    if s.supplier != [] {
      var t, h := Alloc(s, c), s.supplier[0];
      AllocPool(s, c);
      AllocIds(s, c);
      forall e, g | e in t.trace && g in LiveSet(t)
        ensures CommittedBefore(e, t.insts[g])
      {
        if g != h { assert CommittedBefore(e, s.insts[g]); }
      }
    }
  }

  lemma DispatchKeepsOrder(s: State, c: nat)
    requires OrderOk(s) && CanDispatch(s, c)
    ensures OrderOk(Dispatch(s, c))
  {
    if Accepted(s, c) {
      DispatchPool(s, c);
      DispatchIds(s, c);
      CommitsFrame(s, Dispatch(s, c));
    }
  }

  lemma CommitsFrame(s: State, t: State)
    requires Wf(s) && Wf(t) && CommitsOk(s) && SameIdentity(s.insts, t.insts) && LiveSet(t) <= LiveSet(s)
    requires t.nextId == s.nextId && t.trace == s.trace
    ensures CommitsOk(t)
  {
    forall e, g | e in t.trace && g in LiveSet(t)
      ensures CommittedBefore(e, t.insts[g])
    {
      assert CommittedBefore(e, s.insts[g]);
    }
  }

  lemma SquashKeepsOrder(s: State, t: State, c: nat, from: nat, drop: bool)
    requires OrderOk(s) && Wf(t) && Squashing(s, t, c, from, drop)
    ensures OrderOk(t)
  {
    SquashPool(s, t, c, from, drop);
    SquashIds(s, t, c, from, drop);
    SquashLive(s, t, c, from, drop);
    CommitsFrame(s, t);
  }

  // Recording the commit of the head.
  lemma CommitRecorded(s: State, t: State)
    requires OrderOk(s) && s.rob != [] && Wf(t) && PoolOk(t) && IdsOk(t)
    requires SameIdentity(s.insts, t.insts) && t.nextId == s.nextId
    requires t.trace == s.trace + [Committed(s.insts[s.rob[0]].cpu, s.insts[s.rob[0]].id)]
    requires LiveSet(t) <= LiveSet(s) - {s.rob[0]}
    ensures OrderOk(t)
  {
    var h := s.rob[0];
    assert h in s.rob && h in LiveSet(s);
    forall e, x | e in t.trace && x in LiveSet(t)
      ensures CommittedBefore(e, t.insts[x])
    {
      if e in s.trace {
        assert CommittedBefore(e, s.insts[x]);
      } else if s.insts[x].cpu == s.insts[h].cpu {
        HeadIsOldest(s, x);
      }
    }
    forall i, j | 0 <= i < j < |t.trace| && t.trace[i].Committed? && t.trace[j].Committed? && t.trace[i].cpu == t.trace[j].cpu
      ensures t.trace[i].id < t.trace[j].id
    {
      assert t.trace[i] in s.trace && CommittedBefore(t.trace[i], s.insts[h]);
    }
    assert s.insts[h].id < s.nextId[s.insts[h].cpu];
  }

  lemma FlushAtCommitKeepsOrder(s: State)
    requires OrderOk(s) && s.rob != []
    ensures
      var x := s.insts[s.rob[0]];
      OrderOk(Flush(s.(trace := s.trace + [Committed(x.cpu, x.id)]), x.cpu))
  {
    hide Flush;
    var c := s.insts[s.rob[0]].cpu;
    var trace := s.trace + [Committed(c, s.insts[s.rob[0]].id)];
    var u, t := Flush(s, c), Flush(s.(trace := trace), c);
    FlushIgnoresTrace(s, c, trace);
    FlushSquashes(s, c);
    SquashKeepsOrder(s, u, c, 0, true);
    FlushLive(s, c);
    PoolFrame(u, t);
    IdsFrame(u, t);
    CommitRecorded(s, t);
  }

  lemma {:induction false} CommitKeepsOrder(s: State)
    requires OrderOk(s)
    ensures OrderOk(Commit(s))
    decreases |s.rob|
  {
    if s.rob != [] {
      var x := s.insts[s.rob[0]];
      if x.status == Ready {
        if FlushesAtCommit(x) {
          FlushAtCommitKeepsOrder(s);
        } else {
          RetirePool(s);
          CommitRecorded(s, Retire(s));
          CommitKeepsOrder(Retire(s));
        }
      } else if x.status == DepReady {
        InPlaceKeepsOrder(s, Arrived(s, s.rob[0]));
      }
    }
  }

  lemma PartialFlushKeepsOrder(s: State, h: nat)
    requires OrderOk(s) && CanFlushOn(s, h)
    ensures OrderOk(PartialFlush(s, h))
  {
    PartialSquashes(s, h);
    SquashKeepsOrder(s, PartialFlush(s, h), s.insts[h].cpu, s.insts[h].id + 1, DropsDecoder(s.insts[h]));
  }

  lemma FlushKeepsOrder(s: State, c: nat)
    requires OrderOk(s) && c < |s.decoder|
    ensures OrderOk(Flush(s, c))
  {
    FlushSquashes(s, c);
    SquashKeepsOrder(s, Flush(s, c), c, 0, true);
  }

  // ---- every step, and every run ----

  lemma StepKeepsOrder(s: State, step: Step)
    requires OrderOk(s) && Enabled(s, step)
    ensures OrderOk(Next(s, step))
  {
    hide OrderOk, InPlace;
    assert Wf(s);
    match step
    case DoAlloc(c) => AllocKeepsOrder(s, c);
    case DoDispatch(c) => DispatchKeepsOrder(s, c);
    case DoSupplyGeneric =>
      SupplyGenericInPlace(s, 0);
      InPlaceKeepsOrder(s, Next(s, step));
    case DoSupplyLs =>
      SupplyLsInPlace(s, 0);
      InPlaceKeepsOrder(s, Next(s, step));
    case DoSupplyIo =>
      SupplyIoInPlace(s, 0);
      InPlaceKeepsOrder(s, Next(s, step));
    case DoExec =>
      ExecInPlace(s, 0);
      InPlaceKeepsOrder(s, Next(s, step));
    case DoWriteBack(h) =>
      WriteBackInPlace(s, h);
      InPlaceKeepsOrder(s, Next(s, step));
    case DoPartialFlush(h) => PartialFlushKeepsOrder(s, h);
    case DoCommit => CommitKeepsOrder(s);
    case DoInterrupt(c) => FlushKeepsOrder(s, c);
    case _ =>
      DecodingInPlace(s, step);
      InPlaceKeepsOrder(s, Next(s, step));
  }

  lemma InitialOrder(s: State)
    requires Initial(s)
    ensures OrderOk(s)
  {
    InitialInv(s);
  }

  lemma {:induction false} RunKeepsOrder(states: seq<State>, steps: seq<Step>, i: nat)
    requires Run(states, steps) && i < |states|
    ensures OrderOk(states[i])
  {
    if i == 0 {
      InitialOrder(states[0]);
    } else {
      RunKeepsOrder(states, steps, i - 1);
      StepKeepsOrder(states[i - 1], steps[i - 1]);
    }
  }
}
