// When the partial flush keeps the dependency graph: exactly when no decoder
// entry it returns to the supplier is an orphan.
module PipelineOrphans {
  import opened Common
  import opened PipelineState
  import opened PipelineSteps
  import opened PipelineInvariant
  import opened PipelineSquash
  import opened PipelinePartial

  // Facts about t = PartialFlush(s, h) gathered once.
  ghost predicate Flushed(s: State, t: State, h: nat)
    requires Wf(s) && Wf(t) && h < |s.insts|
  {
    var c, from, drop := s.insts[h].cpu, s.insts[h].id + 1, DropsDecoder(s.insts[h]);
    && Squashing(s, t, c, from, drop)
    && Unlinked(s.insts, t.insts, LiveSet(s), Squashed(s.rob, s.insts, c, from))
    && t.regs == s.regs[c := DropRegs(s.regs[c], s.insts, from)]
    && t.writeReady == s.writeReady && t.mustIssue == s.mustIssue
  }

  lemma PartialIsFlushed(s: State, h: nat)
    requires Wf(s) && GraphOk(s) && CanFlushOn(s, h)
    ensures Flushed(s, PartialFlush(s, h), h)
  {
    PartialSquashes(s, h);
    PartialLinks(s, h);
    PartialFields(s, h);
  }

  lemma FlushedCounts(s: State, t: State, h: nat)
    requires Wf(s) && Wf(t) && h < |s.insts| && PoolOk(s) && CountsOk(s.insts, LiveSet(s)) && Flushed(s, t, h)
    ensures CountsOk(t.insts, LiveSet(t))
  {
    var c, from := s.insts[h].cpu, s.insts[h].id + 1;
    SquashLive(s, t, c, from, DropsDecoder(s.insts[h]));
    OnlyLinksSame(s.insts, t.insts);
    forall x | x in LiveSet(t)
      ensures t.insts[x].resolved == Nulls(t.insts[x].depIn)
    {
      assert Survives(s, x, c, from, DropsDecoder(s.insts[h]));
      assert x !in Squashed(s.rob, s.insts, c, from);
    }
  }

  lemma FlushedStatus(s: State, t: State, h: nat)
    requires Wf(s) && Wf(t) && h < |s.insts| && PoolOk(s) && StatusOk(s) && Flushed(s, t, h)
    ensures StatusOk(t)
  {
    OnlyLinksSame(s.insts, t.insts);
    SquashStatus(s, t, s.insts[h].cpu, s.insts[h].id + 1, DropsDecoder(s.insts[h]));
  }

  // ---- sufficiency ----

  lemma FlushedEdges(s: State, t: State, h: nat)
    requires Wf(s) && Wf(t) && PoolOk(s) && IdsOk(s) && StatusOk(s) && CanFlushOn(s, h) && Flushed(s, t, h)
    requires Edges(s.insts, LiveSet(s)) && CountsOk(s.insts, LiveSet(s)) && NoOrphans(s, h)
    ensures Edges(t.insts, LiveSet(t))
  {
    var live, rest := LiveSet(s), LiveSet(t);
    SquashLive(s, t, s.insts[h].cpu, s.insts[h].id + 1, DropsDecoder(s.insts[h]));
    FlushedCounts(s, t, h);
    forall x, i | x in rest && 0 <= i < |t.insts[x].depIn| && t.insts[x].depIn[i].peer.Some?
      ensures t.insts[x].depIn[i].peer.value in rest
    {
      FlushedInLink(s, t, h, x, i);
    }
    forall x, k | x in rest && 0 <= k < |t.insts[x].depOut| && t.insts[x].depOut[k].peer.Some?
      ensures t.insts[x].depOut[k].peer.value in rest
    {
      FlushedOutLink(s, t, h, x, k);
    }
    EdgesRestrict(t.insts, live, rest);
  }

  lemma FlushedInLink(s: State, t: State, h: nat, x: nat, i: nat)
    requires Wf(s) && Wf(t) && PoolOk(s) && IdsOk(s) && StatusOk(s) && CanFlushOn(s, h) && Flushed(s, t, h)
    requires Edges(s.insts, LiveSet(s))
    requires x in LiveSet(t) && i < |t.insts[x].depIn| && t.insts[x].depIn[i].peer.Some?
    ensures t.insts[x].depIn[i].peer.value in LiveSet(t)
  {
    var c, from, drop := s.insts[h].cpu, s.insts[h].id + 1, DropsDecoder(s.insts[h]);
    SquashLive(s, t, c, from, drop);
    assert Survives(s, x, c, from, drop);
    assert x !in Squashed(s.rob, s.insts, c, from);
    assert t.insts[x].depIn == s.insts[x].depIn;
    assert x in LiveSet(s);
    assert InLinkOk(s.insts, LiveSet(s), x, i);
    PartialInLinks(s, h, x, i);
  }

  lemma FlushedOutLink(s: State, t: State, h: nat, x: nat, k: nat)
    requires Wf(s) && Wf(t) && PoolOk(s) && CanFlushOn(s, h) && Flushed(s, t, h) && NoOrphans(s, h)
    requires x in LiveSet(t) && k < |t.insts[x].depOut| && t.insts[x].depOut[k].peer.Some?
    ensures t.insts[x].depOut[k].peer.value in LiveSet(t)
  {
    hide Keep, Squashed;
    var c, from, drop := s.insts[h].cpu, s.insts[h].id + 1, DropsDecoder(s.insts[h]);
    SquashLive(s, t, c, from, drop);
    assert Survives(s, x, c, from, drop);
    var d, i := t.insts[x].depOut[k].peer.value, t.insts[x].depOut[k].back;
    assert OutLinkOk(t.insts, LiveSet(s), x, k);
    assert d in LiveSet(s);
    assert d !in Squashed(s.rob, s.insts, c, from);
    assert t.insts[d].depIn == s.insts[d].depIn;
  }

  lemma FlushedRegs(s: State, t: State, h: nat)
    requires Wf(s) && Wf(t) && PoolOk(s) && RegsOk(s) && CanFlushOn(s, h) && Flushed(s, t, h) && NoOrphans(s, h)
    ensures RegsOk(t)
  {
    var c, from, drop := s.insts[h].cpu, s.insts[h].id + 1, DropsDecoder(s.insts[h]);
    SquashLive(s, t, c, from, drop);
    OnlyLinksSame(s.insts, t.insts);
    forall d, r | 0 <= d < |t.regs| && r in t.regs[d]
      ensures
        var g := t.regs[d][r];
        Live(t, g) && t.insts[g].cpu == d && t.insts[g].status != Ready && r in t.insts[g].outRegs
    {
      var g := t.regs[d][r];
      assert r in s.regs[d] && s.regs[d][r] == g && Live(s, g) && s.insts[g].cpu == d;
      assert t.insts[g].outRegs == s.insts[g].outRegs;
      if d != c && g in s.decoder[c] { DecoderMember(s, c, g); }
      assert Survives(s, g, c, from, drop);
      assert g in LiveSet(t);
    }
  }

  lemma PartialFlushGraph(s: State, h: nat)
    requires Wf(s) && GraphOk(s) && CanFlushOn(s, h) && NoOrphans(s, h)
    ensures GraphOk(PartialFlush(s, h))
  {
    var t, c, from, drop := PartialFlush(s, h), s.insts[h].cpu, s.insts[h].id + 1, DropsDecoder(s.insts[h]);
    PartialIsFlushed(s, h);
    assert PoolOk(t) by { SquashPool(s, t, c, from, drop); }
    assert IdsOk(t) by { SquashIds(s, t, c, from, drop); }
    assert Edges(t.insts, LiveSet(t)) by { FlushedEdges(s, t, h); }
    assert CountsOk(t.insts, LiveSet(t)) by { FlushedCounts(s, t, h); }
    assert StatusOk(t) by { FlushedStatus(s, t, h); }
    assert RegsOk(t) by { FlushedRegs(s, t, h); }
  }

  // The oldest instruction is never younger than a flushing branch of its cpu.
  lemma HeadNotHit(s: State, h: nat)
    requires Wf(s) && PoolOk(s) && IdsOk(s) && CanFlushOn(s, h) && s.rob != []
    ensures !Hit(s.insts[s.rob[0]], s.insts[h].cpu, s.insts[h].id + 1)
  {
    assert s.rob[0] in s.rob;
    DecoderYounger(s, s.insts[h].cpu);
  }

  // The issue side and the pool survive even without the guard.
  lemma PartialFlushIssue(s: State, h: nat)
    requires Wf(s) && GraphOk(s) && IssueOk(s) && CanFlushOn(s, h)
    ensures IssueOk(PartialFlush(s, h))
  {
    var t, c, from, drop := PartialFlush(s, h), s.insts[h].cpu, s.insts[h].id + 1, DropsDecoder(s.insts[h]);
    PartialIsFlushed(s, h);
    if s.rob != [] { HeadNotHit(s, h); }
    SquashIssue(s, t, c, from, drop);
  }

  lemma PartialFlushKeepsInv(s: State, h: nat)
    requires Inv(s) && CanFlushOn(s, h) && NoOrphans(s, h)
    ensures Inv(PartialFlush(s, h))
  {
    PartialFlushGraph(s, h);
    PartialFlushIssue(s, h);
  }

  // ---- necessity ----

  lemma LinkedOrphan(s: State, t: State, h: nat, d: nat, i: nat)
    requires Wf(s) && Wf(t) && PoolOk(s) && CanFlushOn(s, h) && Flushed(s, t, h) && DropsDecoder(s.insts[h])
    requires d in s.decoder[s.insts[h].cpu] && i < |s.insts[d].depIn| && s.insts[d].depIn[i].peer.Some?
    requires Survives(s, s.insts[d].depIn[i].peer.value, s.insts[h].cpu, s.insts[h].id + 1, true)
    ensures !Edges(t.insts, LiveSet(t))
  {
    hide Keep, Squashed, PoolOk, OnlyLinks;
    var c, from := s.insts[h].cpu, s.insts[h].id + 1;
    SquashLive(s, t, c, from, true);
    DecoderMember(s, c, d);
    assert d in LiveSet(s) && d !in Squashed(s.rob, s.insts, c, from);
    assert t.insts[d].depIn == s.insts[d].depIn;
    assert InLinkOk(t.insts, LiveSet(s), d, i);
    var g, k := t.insts[d].depIn[i].peer.value, t.insts[d].depIn[i].back;
    assert g in LiveSet(t) && t.insts[g].depOut[k].peer == Some(d);
    assert d !in LiveSet(t);
    assert !OutLinkOk(t.insts, LiveSet(t), g, k);
  }

  lemma ProducingOrphan(s: State, t: State, h: nat, r: nat)
    requires Wf(s) && Wf(t) && PoolOk(s) && CanFlushOn(s, h) && Flushed(s, t, h) && DropsDecoder(s.insts[h])
    requires r in s.regs[s.insts[h].cpu] && s.insts[s.regs[s.insts[h].cpu][r]].id < s.insts[h].id + 1
    requires s.regs[s.insts[h].cpu][r] in s.decoder[s.insts[h].cpu]
    ensures !RegsOk(t)
  {
    var c, from := s.insts[h].cpu, s.insts[h].id + 1;
    SquashLive(s, t, c, from, true);
    assert r in t.regs[c] && t.regs[c][r] == s.regs[c][r];
    assert t.regs[c][r] !in LiveSet(t);
    assert !Live(t, t.regs[c][r]);
  }

  // The partial flush keeps the graph if and only if there is no orphan.
  lemma PartialFlushExactly(s: State, h: nat)
    requires Wf(s) && GraphOk(s) && CanFlushOn(s, h)
    ensures GraphOk(PartialFlush(s, h)) <==> NoOrphans(s, h)
  {
    if NoOrphans(s, h) {
      PartialFlushGraph(s, h);
    } else {
      var t, c, from := PartialFlush(s, h), s.insts[h].cpu, s.insts[h].id + 1;
      PartialIsFlushed(s, h);
      if d, i :| d in s.decoder[c] && 0 <= i < |s.insts[d].depIn| && s.insts[d].depIn[i].peer.Some? &&
                 Survives(s, s.insts[d].depIn[i].peer.value, c, from, true) {
        LinkedOrphan(s, t, h, d, i);
      } else {
        var r :| r in s.regs[c] && s.insts[s.regs[c][r]].id < from && s.regs[c][r] in s.decoder[c];
        ProducingOrphan(s, t, h, r);
      }
    }
  }
}
