// Who produces a register: the bank names an instruction if and only if that
// is the youngest instruction in flight that writes the register and it has
// not written back, so a reader waits for exactly the value it must read.
module PipelineProducers {
  import opened Common
  import opened PipelineState
  import opened PipelineSteps
  import opened PipelineInvariant
  import opened PipelineFrame
  import opened PipelineDecode
  import opened PipelineDispatch
  import opened PipelineIssue
  import opened PipelineWriteBack
  import opened PipelineSquash
  import opened PipelineFlush
  import opened PipelinePartial
  import opened PipelineOrphans
  import opened PipelineRuns

  // h is in flight on cpu c and writes register r.
  ghost predicate Writes(s: State, c: nat, r: nat, h: nat)
    requires Wf(s)
  {
    h < |s.insts| && Live(s, h) && s.insts[h].cpu == c && r in s.insts[h].outRegs
  }

  ghost predicate LastWriter(s: State, c: nat, r: nat, h: nat)
    requires Wf(s)
  {
    Writes(s, c, r, h) && forall g: nat :: Writes(s, c, r, g) ==> s.insts[g].id <= s.insts[h].id
  }

  ghost predicate Produces(s: State, c: nat, r: nat, h: nat)
    requires Wf(s)
  {
    LastWriter(s, c, r, h) && s.insts[h].status != Ready
  }

  ghost predicate Names(s: State, c: nat, r: nat, h: nat) {
    c < |s.regs| && r in s.regs[c] && s.regs[c][r] == h
  }

  ghost predicate ProducersOk(s: State)
    requires Wf(s)
  {
    forall c: nat, r: nat, h: nat :: Names(s, c, r, h) <==> Produces(s, c, r, h)
  }

  // ---- steps that leave bank and writers alone ----

  ghost predicate SameWriters(s: State, t: State)
    requires Wf(s) && Wf(t)
  {
    && (forall c: nat, r: nat, h: nat :: Writes(s, c, r, h) <==> Writes(t, c, r, h))
    && (forall c: nat, r: nat, h: nat :: Writes(s, c, r, h) ==>
          t.insts[h].id == s.insts[h].id && (t.insts[h].status == Ready <==> s.insts[h].status == Ready))
  }

  lemma ProducersFrame(s: State, t: State)
    requires Wf(s) && Wf(t) && ProducersOk(s) && s.regs == t.regs && SameWriters(s, t)
    ensures ProducersOk(t)
  {
    hide Live;
    forall c: nat, r: nat, h: nat
      ensures Names(t, c, r, h) <==> Produces(t, c, r, h)
    {
      assert Names(s, c, r, h) <==> Produces(s, c, r, h);
    }
  }

  // An instruction is not disturbed while it neither moves nor finishes.
  ghost predicate Undisturbed(s: State, t: State) {
    && SamePlaces(s, t) && SameIdentity(s.insts, t.insts) && s.regs == t.regs
    && forall h :: 0 <= h < |s.insts| ==>
      t.insts[h].outRegs == s.insts[h].outRegs && (t.insts[h].status == Ready <==> s.insts[h].status == Ready)
  }

  lemma UndisturbedProducers(s: State, t: State)
    requires Wf(s) && Wf(t) && ProducersOk(s) && Undisturbed(s, t)
    ensures ProducersOk(t)
  {
    hide ProducersOk;
    ProducersFrame(s, t);
  }

  // Units, response, flags and history may change.
  lemma UndisturbedSelf(s: State, t: State)
    requires SamePlaces(s, t) && s.insts == t.insts && s.regs == t.regs
    ensures Undisturbed(s, t)
  {
  }

  lemma UndisturbedTransitive(s: State, t: State, u: State)
    requires Undisturbed(s, t) && Undisturbed(t, u)
    ensures Undisturbed(s, u)
  {
  }

  lemma StartUndisturbed(s: State, h: nat, u: nat, t: State)
    requires Wf(s) && h < |s.insts| && u < |s.units| && s.insts[h].status != Ready
    requires t == Start(s, h, u).(writeReady := t.writeReady, mustIssue := t.mustIssue)
    ensures Undisturbed(s, t)
  {
  }

  lemma {:induction false} SupplyGenericUndisturbed(s: State, i: nat)
    requires Wf(s) && i <= |s.generic|
    ensures Undisturbed(s, SupplyGeneric(s, i))
    decreases |s.generic| - i
  {
    hide Undisturbed;
    if i == |s.generic| {
      UndisturbedSelf(s, s);
    } else {
      var h := s.generic[i];
      var u := FreeUnit(s.units, s.insts[h].kind);
      if s.insts[h].status == DepReady && u.Some? {
        var t := Start(s, h, u.value);
        StartUndisturbed(s, h, u.value, t);
        SupplyGenericUndisturbed(t, i + 1);
        UndisturbedTransitive(s, t, SupplyGeneric(t, i + 1));
      } else {
        SupplyGenericUndisturbed(s, i + 1);
      }
    }
  }

  lemma {:induction false} SupplyLsUndisturbed(s: State, i: nat)
    requires Wf(s) && i <= |s.ls|
    ensures Undisturbed(s, SupplyLs(s, i))
    decreases |s.ls| - i
  {
    hide Undisturbed;
    if i == |s.ls| {
      UndisturbedSelf(s, s);
    } else {
      var h := s.ls[i];
      var x := s.insts[h];
      var u := FreeUnit(s.units, x.kind);
      if x.kind == Store && !s.writeReady[x.cpu] {
        SupplyLsUndisturbed(s, i + 1);
      } else if x.status != DepReady {
        SupplyLsUndisturbed(s, i + 1);
      } else if u.None? {
        UndisturbedSelf(s, s);
      } else {
        var t := Start(s, h, u.value).(writeReady := s.writeReady[x.cpu := false]);
        StartUndisturbed(s, h, u.value, t);
        SupplyLsUndisturbed(t, i + 1);
        UndisturbedTransitive(s, t, SupplyLs(t, i + 1));
      }
    }
  }

  lemma {:induction false} SupplyIoUndisturbed(s: State, i: nat)
    requires Wf(s) && QueuesOk(s) && i <= |s.io|
    ensures Undisturbed(s, SupplyIo(s, i))
    decreases |s.io| - i
  {
    hide Undisturbed;
    if i == |s.io| {
      UndisturbedSelf(s, s);
    } else {
      var h := s.io[i];
      var x := s.insts[h];
      var u := FreeUnit(s.units, x.kind);
      if !s.mustIssue[x.cpu] {
        SupplyIoUndisturbed(s, i + 1);
      } else if u.None? {
        UndisturbedSelf(s, s);
      } else {
        assert h in s.io && h in s.rob && x.status != Ready by { assert QueueOk(s, s.io, IoQueue); }
        StartUndisturbed(s, h, u.value, Start(s, h, u.value).(mustIssue := s.mustIssue[x.cpu := false]));
      }
    }
  }

  lemma {:induction false} ExecUndisturbed(s: State, u: nat)
    requires Wf(s) && u <= |s.units|
    ensures Undisturbed(s, Exec(s, u))
    decreases |s.units| - u
  {
    hide Undisturbed;
    if u == |s.units| {
      UndisturbedSelf(s, s);
    } else if s.units[u].busy.None? {
      ExecUndisturbed(s, u + 1);
    } else {
      var t := ExecUnit(s, u);
      assert Wf(t);
      UndisturbedSelf(s, t);
      ExecUndisturbed(t, u + 1);
      UndisturbedTransitive(s, t, Exec(t, u + 1));
    }
  }

  // ---- decoder side ----

  lemma DescribeUndisturbed(s: State, step: Step)
    requires Enabled(s, step) && (step.DoDescribe? || step.DoReadReg? || step.DoLink?)
    ensures Undisturbed(s, Next(s, step))
  {
  }

  lemma AllocProducers(s: State, c: nat)
    requires Wf(s) && PoolOk(s) && ProducersOk(s) && c < |s.decoder|
    ensures ProducersOk(Alloc(s, c))
  {
    hide ProducersOk;
    var t := Alloc(s, c);
    if s.supplier != [] {
      AllocPool(s, c);
      forall d: nat, r: nat, h: nat
        ensures Writes(s, d, r, h) <==> Writes(t, d, r, h)
      {
        assert h < |s.insts| ==> (h in LiveSet(s) <==> Live(s, h)) && (h in LiveSet(t) <==> Live(t, h));
      }
      ProducersFrame(s, t);
    }
  }

  lemma DispatchProducers(s: State, c: nat)
    requires Wf(s) && PoolOk(s) && IdsOk(s) && StatusOk(s) && ProducersOk(s) && CanDispatch(s, c)
    ensures ProducersOk(Dispatch(s, c))
  {
    hide ProducersOk;
    var t := Dispatch(s, c);
    if Accepted(s, c) {
      DispatchPool(s, c);
      DecoderEntryOutsideRob(s, c, 0);
      forall d: nat, r: nat, h: nat
        ensures Writes(s, d, r, h) <==> Writes(t, d, r, h)
      {
        assert h < |s.insts| ==> (h in LiveSet(s) <==> Live(s, h)) && (h in LiveSet(t) <==> Live(t, h));
      }
      ProducersFrame(s, t);
    }
  }

  // No younger instruction of the decoder has announced the register yet.
  ghost predicate InOrder(s: State, c: nat, k: nat, r: nat)
    requires Wf(s) && c < |s.decoder| && k < |s.decoder[c]|
  {
    forall j :: k < j < |s.decoder[c]| ==> r !in s.insts[s.decoder[c][j]].outRegs
  }

  // A decoder entry is younger than whatever precedes it.
  lemma EntryYounger(s: State, c: nat, k: nat, g: nat)
    requires Wf(s) && PoolOk(s) && IdsOk(s) && c < |s.decoder| && k < |s.decoder[c]|
    requires g < |s.insts| && Live(s, g) && s.insts[g].cpu == c
    requires forall j :: k < j < |s.decoder[c]| ==> s.decoder[c][j] != g
    ensures g != s.decoder[c][k] ==> s.insts[g].id < s.insts[s.decoder[c][k]].id
  {
    DecoderYounger(s, c);
    assert DecoderIdsOk(s, c);
    DecoderEntryOutsideRob(s, c, k);
    if g in s.decoder[c] {
      var j :| 0 <= j < |s.decoder[c]| && s.decoder[c][j] == g;
    }
  }

  lemma AnnouncedWriters(s: State, c: nat, k: nat, r: nat)
    requires Wf(s) && PoolOk(s) && c < |s.decoder| && k < |s.decoder[c]|
    ensures
      var t, h := WriteReg(s, c, k, r), s.decoder[c][k];
      && t.insts[h].id == s.insts[h].id
      && forall d: nat, q: nat, g: nat ::
        Writes(t, d, q, g) <==> Writes(s, d, q, g) || (d == c && q == r && g == h)
  {
    var t, h := WriteReg(s, c, k, r), s.decoder[c][k];
    DecoderEntryOutsideRob(s, c, k);
    forall d: nat, q: nat, g: nat
      ensures Writes(t, d, q, g) <==> Writes(s, d, q, g) || (d == c && q == r && g == h)
    {
      if g < |s.insts| {
        assert Live(s, g) <==> Live(t, g);
      }
    }
  }

  lemma AnnouncedYoungest(s: State, c: nat, k: nat, r: nat, g: nat)
    requires Wf(s) && PoolOk(s) && IdsOk(s) && c < |s.decoder| && k < |s.decoder[c]| && InOrder(s, c, k, r)
    requires Writes(WriteReg(s, c, k, r), c, r, g)
    ensures g < |s.insts| && (g != s.decoder[c][k] ==> s.insts[g].id < s.insts[s.decoder[c][k]].id)
  {
    AnnouncedWriters(s, c, k, r);
    if g != s.decoder[c][k] { EntryYounger(s, c, k, g); }
  }

  lemma WriteRegProducers(s: State, c: nat, k: nat, r: nat)
    requires Wf(s) && PoolOk(s) && IdsOk(s) && StatusOk(s) && ProducersOk(s)
    requires c < |s.decoder| && k < |s.decoder[c]| && InOrder(s, c, k, r)
    ensures ProducersOk(WriteReg(s, c, k, r))
  {
    hide Live;
    var t, h := WriteReg(s, c, k, r), s.decoder[c][k];
    AnnouncedWriters(s, c, k, r);
    assert t.insts[h].status != Ready by { DecoderEntryOutsideRob(s, c, k); }
    forall g: nat | Writes(t, c, r, g)
      ensures g < |s.insts| && t.insts[g].id == s.insts[g].id && (g != h ==> t.insts[g].id < t.insts[h].id)
    {
      AnnouncedYoungest(s, c, k, r, g);
    }
    assert LastWriter(t, c, r, h);
    forall d: nat, q: nat, g: nat
      ensures Names(t, d, q, g) <==> Produces(t, d, q, g)
    {
      assert Names(s, d, q, g) <==> Produces(s, d, q, g);
      if d == c && q == r {
        assert Names(t, d, q, g) <==> g == h;
      }
    }
  }

  // Announcing a register out of order leaves the bank with the older writer.
  lemma WriteRegExactly(s: State, c: nat, k: nat, r: nat)
    requires Wf(s) && PoolOk(s) && IdsOk(s) && StatusOk(s) && ProducersOk(s)
    requires c < |s.decoder| && k < |s.decoder[c]|
    ensures ProducersOk(WriteReg(s, c, k, r)) <==> InOrder(s, c, k, r)
  {
    if InOrder(s, c, k, r) {
      WriteRegProducers(s, c, k, r);
    } else {
      var t := WriteReg(s, c, k, r);
      var j :| k < j < |s.decoder[c]| && r in s.insts[s.decoder[c][j]].outRegs;
      AnnouncedWriters(s, c, k, r);
      DecoderEntryOutsideRob(s, c, j);
      DecoderEntryOutsideRob(s, c, k);
      assert DecoderIdsOk(s, c);
      assert Writes(s, c, r, s.decoder[c][j]);
      assert Writes(t, c, r, s.decoder[c][j]);
      assert Names(t, c, r, s.decoder[c][k]) && !Produces(t, c, r, s.decoder[c][k]);
    }
  }

  // ---- write-back ----

  // Write-back takes the finished instruction out of the bank, and nothing
  // else: a register that a younger instruction redefined still names that one.
  lemma WriteBackBank(s: State, h: nat)
    requires Inv(s) && h in s.response
    ensures forall c: nat, r: nat, g: nat :: Names(WriteBack(s, h), c, r, g) <==> Names(s, c, r, g) && g != h
  {
    hide ResolveFrom, Without, GraphOk, IssueOk;
    var t := WriteBack(s, h);
    forall c: nat, r: nat, g: nat
      ensures Names(t, c, r, g) <==> Names(s, c, r, g) && g != h
    {
      if Names(s, c, r, g) { NamedWriter(s, c, r, g); }
    }
  }

  lemma NamedWriter(s: State, c: nat, r: nat, g: nat)
    requires Inv(s) && Names(s, c, r, g)
    ensures Writes(s, c, r, g) && s.insts[g].status != Ready
  {
    assert RegsOk(s);
  }

  lemma WriteBackProducers(s: State, h: nat)
    requires Inv(s) && ProducersOk(s) && h in s.response
    ensures ProducersOk(WriteBack(s, h))
  {
    hide WriteBack, GraphOk, IssueOk;
    var t := WriteBack(s, h);
    WriteBackWriters(s, h);
    WriteBackBank(s, h);
    forall c: nat, r: nat, g: nat
      ensures Names(t, c, r, g) <==> Produces(t, c, r, g)
    {
      assert Names(s, c, r, g) <==> Produces(s, c, r, g);
    }
  }

  lemma WriteBackWriters(s: State, h: nat)
    requires Inv(s) && h in s.response
    ensures
      var t := WriteBack(s, h);
      && t.insts[h].status == Ready
      && (forall c: nat, r: nat, g: nat :: Writes(s, c, r, g) <==> Writes(t, c, r, g))
      && (forall c: nat, r: nat, g: nat :: Writes(s, c, r, g) ==>
            t.insts[g].id == s.insts[g].id && (g != h ==> (t.insts[g].status == Ready <==> s.insts[g].status == Ready)))
  {
    hide WriteBack;
    var t := WriteBack(s, h);
    assert h in s.rob && s.insts[h].status == Executing;
    WriteBackGraphLinks(s, h);
    PoolFrame(s, t);
    forall c: nat, r: nat, g: nat | Writes(s, c, r, g) && g != h
      ensures t.insts[g].status == Ready <==> s.insts[g].status == Ready
    {
      ReadyStays(s, t, h, g);
    }
  }

  // A finished instruction is not woken again.
  lemma ReadyStays(s: State, t: State, h: nat, g: nat)
    requires Inv(s) && Wf(t) && Finished(s, t, h) && g < |s.insts| && Live(s, g) && g != h
    ensures t.insts[g].status == Ready <==> s.insts[g].status == Ready
  {
    if s.insts[g].status == Ready {
      assert g in LiveSet(s);
      if g in s.rob { assert RobStatusOk(s.insts[g]); }
    }
  }

  // ---- leaving the window ----

  // The head is the oldest of its cpu.
  lemma RetireWriters(s: State)
    requires Wf(s) && PoolOk(s) && IdsOk(s) && s.rob != []
    ensures
      var t, h := Retire(s), s.rob[0];
      && (forall c: nat, r: nat, g: nat :: Writes(t, c, r, g) <==> Writes(s, c, r, g) && g != h)
      && (forall c: nat, r: nat, g: nat :: Writes(s, c, r, g) && g != h && s.insts[h].cpu == c ==> s.insts[h].id < s.insts[g].id)
  {
    hide IdsOk;
    var t, h := Retire(s), s.rob[0];
    RetirePool(s);
    forall g | 0 <= g < |s.insts|
      ensures Live(t, g) <==> Live(s, g) && g != h
    {
      assert g in LiveSet(t) <==> Live(t, g);
    }
    forall c: nat, r: nat, g: nat | Writes(s, c, r, g) && g != h && s.insts[h].cpu == c
      ensures s.insts[h].id < s.insts[g].id
    {
      assert g in LiveSet(s);
      HeadIsOldest(s, g);
    }
  }

  lemma RetireProducers(s: State)
    requires Wf(s) && PoolOk(s) && IdsOk(s) && ProducersOk(s) && s.rob != [] && s.insts[s.rob[0]].status == Ready
    ensures ProducersOk(Retire(s))
  {
    hide PoolOk, IdsOk, Live, Wf;
    var t := Retire(s);
    RetireWriters(s);
    forall c: nat, r: nat, g: nat
      ensures Names(t, c, r, g) <==> Produces(t, c, r, g)
    {
      assert Names(s, c, r, g) <==> Produces(s, c, r, g);
    }
  }

  lemma FlushWriters(s: State, c: nat)
    requires Wf(s) && PoolOk(s) && c < |s.decoder|
    ensures forall d: nat, r: nat, g: nat :: Writes(Flush(s, c), d, r, g) <==> Writes(s, d, r, g) && d != c
    ensures Flush(s, c).insts == s.insts && Flush(s, c).regs == s.regs[c := map[]]
  {
    hide Keep, Squashed;
    var t := Flush(s, c);
    FlushLive(s, c);
    forall g | 0 <= g < |s.insts|
      ensures Live(t, g) <==> Live(s, g) && s.insts[g].cpu != c
    {
      assert g in LiveSet(t) <==> Live(t, g);
    }
  }

  lemma FlushProducers(s: State, c: nat)
    requires Wf(s) && PoolOk(s) && ProducersOk(s) && c < |s.decoder|
    ensures ProducersOk(Flush(s, c))
  {
    hide Flush, Live;
    FlushWriters(s, c);
    forall d: nat, r: nat, g: nat
      ensures Names(Flush(s, c), d, r, g) <==> Produces(Flush(s, c), d, r, g)
    {
      assert Names(s, d, r, g) <==> Produces(s, d, r, g);
    }
  }

  lemma CommitFlushProducers(s: State)
    requires Inv(s) && ProducersOk(s) && s.rob != []
    ensures
      var x := s.insts[s.rob[0]];
      ProducersOk(Flush(s.(trace := s.trace + [Committed(x.cpu, x.id)]), x.cpu))
  {
    hide Flush, ProducersOk;
    var x := s.insts[s.rob[0]];
    var trace := s.trace + [Committed(x.cpu, x.id)];
    var u, t := Flush(s, x.cpu), Flush(s.(trace := trace), x.cpu);
    FlushProducers(s, x.cpu);
    FlushIgnoresTrace(s, x.cpu, trace);
    UndisturbedSelf(u, t);
    UndisturbedProducers(u, t);
  }

  lemma {:induction false} CommitProducers(s: State)
    requires Inv(s) && s.response == [] && ProducersOk(s)
    ensures ProducersOk(Commit(s))
    decreases |s.rob|
  {
    hide ProducersOk, Flush, IssueOk;
    if s.rob != [] {
      var x := s.insts[s.rob[0]];
      if x.status == Ready {
        if FlushesAtCommit(x) {
          CommitFlushProducers(s);
        } else {
          RetireProducers(s);
          RetireKeepsInv(s);
          CommitProducers(Retire(s));
        }
      } else if x.status == DepReady {
        UndisturbedSelf(s, Arrived(s, s.rob[0]));
        UndisturbedProducers(s, Arrived(s, s.rob[0]));
      }
    }
  }

  // ---- partial flush ----

  // What a caller can check before a partial flush: the last survivor to write a
  // register, unless it has finished, is the last of all its writers and not
  // behind the branch.
  ghost predicate NoLostProducer(s: State, h: nat)
    requires Wf(s) && h < |s.insts|
  {
    var c := s.insts[h].cpu;
    forall r: nat, g: nat :: LastSurvivor(s, h, r, g) && s.insts[g].status != Ready ==>
      forall d: nat :: Writes(s, c, r, d) ==> s.insts[d].id <= s.insts[g].id && s.insts[d].id <= s.insts[h].id
  }

  ghost predicate WritesOn(s: State, h: nat, r: nat, g: nat)
    requires Wf(s) && h < |s.insts|
  {
    Writes(s, s.insts[h].cpu, r, g) && Survives(s, g, s.insts[h].cpu, s.insts[h].id + 1, DropsDecoder(s.insts[h]))
  }

  ghost predicate LastSurvivor(s: State, h: nat, r: nat, g: nat)
    requires Wf(s) && h < |s.insts|
  {
    WritesOn(s, h, r, g) && forall f: nat :: WritesOn(s, h, r, f) ==> s.insts[f].id <= s.insts[g].id
  }

  lemma FlushedWriters(s: State, t: State, h: nat)
    requires Wf(s) && Wf(t) && PoolOk(s) && CanFlushOn(s, h) && Flushed(s, t, h)
    ensures forall c: nat, r: nat, g: nat :: Writes(t, c, r, g) <==>
      if c == s.insts[h].cpu then WritesOn(s, h, r, g) else Writes(s, c, r, g)
    ensures |t.insts| == |s.insts|
    ensures forall x :: 0 <= x < |s.insts| ==> t.insts[x].id == s.insts[x].id && t.insts[x].status == s.insts[x].status
  {
    hide Keep, Squashed;
    var c, from, drop := s.insts[h].cpu, s.insts[h].id + 1, DropsDecoder(s.insts[h]);
    SquashLive(s, t, c, from, drop);
    OnlyLinksSame(s.insts, t.insts);
    forall d: nat, r: nat, g: nat
      ensures Writes(t, d, r, g) <==> if d == c then WritesOn(s, h, r, g) else Writes(s, d, r, g)
    {
      if g < |s.insts| {
        assert g in LiveSet(t) <==> Live(t, g);
        if g in s.decoder[c] { DecoderMember(s, c, g); }
      }
    }
  }

  lemma FlushedBank(s: State, t: State, h: nat)
    requires Wf(s) && Wf(t) && CanFlushOn(s, h) && Flushed(s, t, h)
    ensures forall c: nat, r: nat, g: nat :: Names(t, c, r, g) <==>
      Names(s, c, r, g) && g < |s.insts| && (c == s.insts[h].cpu ==> s.insts[g].id <= s.insts[h].id)
  {
    hide Squashing, Unlinked;
  }

  // The facts about t = PartialFlush(s, h) the two directions rest on.
  ghost predicate FlushedProducers(s: State, t: State, h: nat)
    requires Wf(s) && Wf(t) && h < |s.insts|
  {
    && (forall c: nat, r: nat, g: nat :: Writes(t, c, r, g) <==>
          if c == s.insts[h].cpu then WritesOn(s, h, r, g) else Writes(s, c, r, g))
    && (|t.insts| == |s.insts| && forall x :: 0 <= x < |s.insts| ==> t.insts[x].id == s.insts[x].id && t.insts[x].status == s.insts[x].status)
    && (forall c: nat, r: nat, g: nat :: Names(t, c, r, g) <==>
          Names(s, c, r, g) && g < |s.insts| && (c == s.insts[h].cpu ==> s.insts[g].id <= s.insts[h].id))
    && (forall r: nat, g: nat :: Names(s, s.insts[h].cpu, r, g) && g < |s.insts| && s.insts[g].id <= s.insts[h].id ==> WritesOn(s, h, r, g))
  }

  lemma NamedSurvives(s: State, h: nat, r: nat, g: nat)
    requires Inv(s) && CanFlushOn(s, h) && NoOrphans(s, h)
    requires Names(s, s.insts[h].cpu, r, g) && g < |s.insts| && s.insts[g].id <= s.insts[h].id
    ensures WritesOn(s, h, r, g)
  {
    NamedWriter(s, s.insts[h].cpu, r, g);
  }

  lemma PartialProducers(s: State, h: nat)
    requires Inv(s) && h < |s.insts| && CanFlushOn(s, h) && NoOrphans(s, h)
    ensures FlushedProducers(s, PartialFlush(s, h), h)
  {
    hide NoOrphans, PartialFlush, Names, Writes, WritesOn, Survives, CanFlushOn, Flushed, GraphOk, IssueOk;
    var t := PartialFlush(s, h);
    PartialFlushes(s, h);
    FlushedWriters(s, t, h);
    FlushedBank(s, t, h);
    forall r: nat, g: nat | Names(s, s.insts[h].cpu, r, g) && g < |s.insts| && s.insts[g].id <= s.insts[h].id
      ensures WritesOn(s, h, r, g)
    {
      NamedSurvives(s, h, r, g);
    }
  }

  lemma PartialFlushes(s: State, h: nat)
    requires Inv(s) && CanFlushOn(s, h)
    ensures PoolOk(s) && Flushed(s, PartialFlush(s, h), h)
  {
    PartialIsFlushed(s, h);
  }

  lemma NotLost(s: State, t: State, h: nat)
    requires Wf(s) && Wf(t) && h < |s.insts| && FlushedProducers(s, t, h) && ProducersOk(s) && NoLostProducer(s, h)
    ensures ProducersOk(t)
  {
    hide Wf, Survives, Live;
    forall c: nat, r: nat, g: nat
      ensures Names(t, c, r, g) <==> Produces(t, c, r, g)
    {
      assert Names(s, c, r, g) <==> Produces(s, c, r, g);
      if c == s.insts[h].cpu {
        if Names(t, c, r, g) {
          assert WritesOn(s, h, r, g) && Writes(t, c, r, g);
        }
        if Produces(t, c, r, g) {
          assert LastSurvivor(s, h, r, g);
        }
      }
    }
  }

  lemma Lost(s: State, t: State, h: nat)
    requires Wf(s) && Wf(t) && h < |s.insts| && FlushedProducers(s, t, h) && ProducersOk(s) && ProducersOk(t)
    ensures NoLostProducer(s, h)
  {
    hide Wf, Survives, Live;
    var c := s.insts[h].cpu;
    forall r: nat, g: nat | LastSurvivor(s, h, r, g) && s.insts[g].status != Ready
      ensures Names(s, c, r, g) && LastWriter(s, c, r, g) && s.insts[g].id <= s.insts[h].id
    {
      assert Produces(t, c, r, g);
      assert Names(t, c, r, g);
      assert Produces(s, c, r, g);
    }
  }

  // The partial flush keeps the bank right if and only if no producer is lost.
  lemma PartialFlushProducersExactly(s: State, h: nat)
    requires Inv(s) && ProducersOk(s) && CanFlushOn(s, h) && NoOrphans(s, h)
    ensures ProducersOk(PartialFlush(s, h)) <==> NoLostProducer(s, h)
  {
    hide PartialFlush, FlushedProducers, NoLostProducer, ProducersOk, NoOrphans, GraphOk, IssueOk;
    var t := PartialFlush(s, h);
    PartialProducers(s, h);
    if NoLostProducer(s, h) { NotLost(s, t, h); }
    if ProducersOk(t) { Lost(s, t, h); }
  }

  // ---- runs ----

  lemma InitialProducers(s: State)
    requires Initial(s)
    ensures ProducersOk(s)
  {
    forall c: nat, r: nat, h: nat
      ensures !Names(s, c, r, h) && !Produces(s, c, r, h)
    {
    }
  }

  // Registers are announced in the order of the decoder, and no partial flush
  // loses a producer.
  ghost predicate KeepsProducers(s: State, step: Step)
    requires Enabled(s, step)
  {
    match step
    case DoWriteReg(c, k, r) => InOrder(s, c, k, r)
    case DoPartialFlush(h) => NoLostProducer(s, h)
    case _ => true
  }

  lemma InPlaceProducers(s: State, step: Step)
    requires Inv(s) && ProducersOk(s) && Enabled(s, step)
    requires step.DoSupplyGeneric? || step.DoSupplyLs? || step.DoSupplyIo? || step.DoExec?
    ensures ProducersOk(Next(s, step))
  {
    hide ProducersOk, GraphOk, Undisturbed, SupplyGeneric, SupplyLs, SupplyIo, Exec;
    match step {
      case DoSupplyGeneric => SupplyGenericUndisturbed(s, 0);
      case DoSupplyLs => SupplyLsUndisturbed(s, 0);
      case DoSupplyIo => SupplyIoUndisturbed(s, 0);
      case DoExec => ExecUndisturbed(s, 0);
    }
    UndisturbedProducers(s, Next(s, step));
  }

  lemma DecodeProducers(s: State, step: Step)
    requires Inv(s) && ProducersOk(s) && Enabled(s, step) && (step.DoDescribe? || step.DoReadReg? || step.DoLink?)
    ensures ProducersOk(Next(s, step))
  {
    hide ProducersOk, GraphOk, IssueOk, Undisturbed;
    DescribeUndisturbed(s, step);
    UndisturbedProducers(s, Next(s, step));
  }

  // Every operation keeps the bank right, announcements and partial flushes
  // exactly under their conditions.
  lemma StepKeepsProducers(s: State, step: Step)
    requires Inv(s) && ProducersOk(s) && Enabled(s, step) && Guarded(s, step)
    ensures ProducersOk(Next(s, step)) <==> KeepsProducers(s, step)
  {
    hide ProducersOk, InOrder, NoLostProducer, NoOrphans, IssueOk;
    match step
    case DoAlloc(c) => AllocProducers(s, c);
    case DoWriteReg(c, k, r) => WriteRegExactly(s, c, k, r);
    case DoDispatch(c) => DispatchProducers(s, c);
    case DoWriteBack(h) => WriteBackProducers(s, h);
    case DoPartialFlush(h) => PartialFlushProducersExactly(s, h);
    case DoCommit => CommitProducers(s);
    case DoInterrupt(c) => FlushProducers(s, c);
    case DoDescribe(_, _, _, _, _, _) => DecodeProducers(s, step);
    case DoReadReg(_, _, _) => DecodeProducers(s, step);
    case DoLink(_, _, _) => DecodeProducers(s, step);
    case _ => InPlaceProducers(s, step);
  }

  ghost predicate ProducingRun(states: seq<State>, steps: seq<Step>) {
    GuardedRun(states, steps) && forall i :: 0 <= i < |steps| ==> KeepsProducers(states[i], steps[i])
  }

  lemma {:induction false} RunKeepsProducers(states: seq<State>, steps: seq<Step>, i: nat)
    requires ProducingRun(states, steps) && i < |states|
    ensures Inv(states[i]) && ProducersOk(states[i])
  {
    hide ProducersOk, Inv, KeepsProducers, Next;
    RunKeepsInv(states, steps, i);
    if i == 0 {
      InitialProducers(states[0]);
    } else {
      RunKeepsProducers(states, steps, i - 1);
      StepKeepsProducers(states[i - 1], steps[i - 1]);
    }
  }

  // ---- what a reader waits for ----

  // dest waits for src and for nothing new besides: one link more on each
  // side, each naming the slot of the other.
  ghost predicate Joined(s: State, t: State, dest: nat, src: nat)
    requires dest < |s.insts| && src < |s.insts| && |t.insts| == |s.insts|
  {
    var i, k := |s.insts[dest].depIn|, |s.insts[src].depOut|;
    && t.insts[dest].depIn == s.insts[dest].depIn + [Link(Some(src), k)]
    && t.insts[src].depOut == s.insts[src].depOut + [Link(Some(dest), i)]
    && t.insts[dest].resolved == s.insts[dest].resolved
    && forall x :: 0 <= x < |s.insts| && x != dest && x != src ==> t.insts[x] == s.insts[x]
  }

  // The youngest writer in flight, unless it has finished, is older than the
  // reader, and the reader comes to wait for it; otherwise nothing changes.
  ghost predicate ReadsRight(s: State, t: State, c: nat, k: nat, r: nat)
    requires Wf(s) && c < |s.decoder| && k < |s.decoder[c]|
  {
    var reader := s.decoder[c][k];
    && |t.insts| == |s.insts|
    && (forall w: nat :: LastWriter(s, c, r, w) && s.insts[w].status != Ready ==>
          w != reader && s.insts[w].id < s.insts[reader].id && Joined(s, t, reader, w))
    && ((forall w: nat :: LastWriter(s, c, r, w) ==> s.insts[w].status == Ready) ==> t == s)
  }

  lemma ReadLinksProducer(s: State, c: nat, k: nat, r: nat)
    requires Inv(s) && ProducersOk(s) && Enabled(s, DoReadReg(c, k, r))
    ensures ReadsRight(s, Next(s, DoReadReg(c, k, r)), c, k, r)
  {
    hide GraphOk, IssueOk, Live;
    var t := ReadReg(s, c, k, r);
    forall w: nat | LastWriter(s, c, r, w) && s.insts[w].status != Ready
      ensures r in s.regs[c] && s.regs[c][r] == w
    {
      assert Produces(s, c, r, w);
      assert Names(s, c, r, w);
    }
    if r in s.regs[c] {
      ReadsOlder(s, c, k, r);
      assert Names(s, c, r, s.regs[c][r]);
      assert Produces(s, c, r, s.regs[c][r]);
    }
  }

  lemma ReadsLastWriter(states: seq<State>, steps: seq<Step>, i: nat)
    requires ProducingRun(states, steps) && i < |steps| && steps[i].DoReadReg?
    ensures Enabled(states[i], steps[i])
    ensures ReadsRight(states[i], states[i + 1], steps[i].c, steps[i].k, steps[i].r)
  {
    hide Inv, ProducersOk, ReadsRight, KeepsProducers;
    RunKeepsProducers(states, steps, i);
    ReadLinksProducer(states[i], steps[i].c, steps[i].k, steps[i].r);
  }
}
