// The decoder-side operations keep the invariant.
module PipelineDecode {
  import opened Common
  import opened PipelineState
  import opened PipelineSteps
  import opened PipelineInvariant
  import opened PipelineFrame

  // A decoder entry is not in the reorder buffer, so changing it is invisible
  // to the issue side.
  lemma DecoderEntryOutsideRob(s: State, c: nat, k: nat)
    requires Wf(s) && PoolOk(s) && c < |s.decoder| && k < |s.decoder[c]|
    ensures s.decoder[c][k] !in s.rob && s.insts[s.decoder[c][k]].cpu == c
    ensures Live(s, s.decoder[c][k])
  {
  }

  // The history only speaks of identities and of statuses in the reorder buffer.
  lemma TraceFrame(s: State, t: State)
    requires Wf(s) && Wf(t) && s.trace == t.trace && TraceOk(s)
    requires SameIdentity(s.insts, t.insts) && s.nextId == t.nextId && LiveSet(t) == LiveSet(s)
    requires forall h :: h in LiveSet(s) && s.insts[h].status in {Executing, Ready} ==> t.insts[h].status in {Executing, Ready}
    ensures TraceOk(t)
  {
    forall e, h | e in t.trace && h in LiveSet(t)
      ensures EventBefore(e, t.insts[h])
    {
      assert EventBefore(e, s.insts[h]);
    }
  }

  lemma DescribeKeepsInv(s: State, c: nat, k: nat, kind: Kind, serial: bool, foresight: bool, latency: nat)
    requires Inv(s) && c < |s.decoder| && k < |s.decoder[c]|
    ensures Inv(Describe(s, c, k, kind, serial, foresight, latency))
  {
    hide StatusOk, TraceOk, UnitsOk, HeadsOk, QueuesOk, IdsOk, RegsOk, CountsOk, Edges;
    var t := Describe(s, c, k, kind, serial, foresight, latency);
    DecoderEntryOutsideRob(s, c, k);
    PoolFrame(s, t);
    DescribeStatus(s, c, k, kind, serial, foresight, latency);
    GraphFrame(s, t);
    IssueFrame(s, t);
    TraceFrame(s, t);
  }

  lemma DescribeStatus(s: State, c: nat, k: nat, kind: Kind, serial: bool, foresight: bool, latency: nat)
    requires Wf(s) && PoolOk(s) && StatusOk(s) && c < |s.decoder| && k < |s.decoder[c]|
    ensures StatusOk(Describe(s, c, k, kind, serial, foresight, latency))
  {
    var t := Describe(s, c, k, kind, serial, foresight, latency);
    DecoderEntryOutsideRob(s, c, k);
    PoolFrame(s, t);
  }

  // ---- allocation ----

  lemma AllocGraph(s: State, c: nat)
    requires Wf(s) && GraphOk(s) && c < |s.decoder| && s.supplier != []
    ensures LiveSet(Alloc(s, c)) == LiveSet(s) + {s.supplier[0]}
    ensures GraphOk(Alloc(s, c))
  {
    var t, h := Alloc(s, c), s.supplier[0];
    AllocPool(s, c);
    AllocIds(s, c);
    AllocEdges(s, c);
    AllocRegs(s, c);
    AllocStatus(s, c);
  }

  lemma AllocStatus(s: State, c: nat)
    requires Wf(s) && PoolOk(s) && StatusOk(s) && c < |s.decoder| && s.supplier != []
    ensures StatusOk(Alloc(s, c))
  {
    var t, h := Alloc(s, c), s.supplier[0];
    AllocPool(s, c);
    assert forall g :: g in t.rob ==> t.insts[g] == s.insts[g];
    forall d, i | 0 <= d < |t.decoder| && 0 <= i < |t.decoder[d]|
      ensures t.insts[t.decoder[d][i]].status in {Decoding, DepReady}
    {
      if t.decoder[d][i] != h {
        assert i < |s.decoder[d]| && t.decoder[d][i] == s.decoder[d][i];
      }
    }
  }

  lemma AllocPool(s: State, c: nat)
    requires Wf(s) && PoolOk(s) && c < |s.decoder| && s.supplier != []
    ensures PoolOk(Alloc(s, c))
    ensures LiveSet(Alloc(s, c)) == LiveSet(s) + {s.supplier[0]}
    ensures s.supplier[0] !in s.rob && s.supplier[0] !in LiveSet(s)
    ensures forall d :: 0 <= d < |s.decoder| ==> s.supplier[0] !in s.decoder[d]
  {
    var t, h := Alloc(s, c), s.supplier[0];
    assert h in s.supplier && !Live(s, h);
    assert forall d, i :: 0 <= d < |s.decoder| && 0 <= i < |s.decoder[d]| ==> s.decoder[d][i] != h;
    forall g | 0 <= g < |t.insts|
      ensures Live(t, g) <==> Live(s, g) || g == h
      ensures g in t.supplier <==> !Live(t, g)
    {
      if g == h {
        assert t.decoder[c][|s.decoder[c]|] == h;
        assert h !in s.supplier[1..];
      } else {
        assert g in s.supplier <==> g in t.supplier;
      }
    }
  }

  // Entries other than the recycled one are untouched.
  lemma AllocOthers(s: State, c: nat)
    requires Wf(s) && PoolOk(s) && c < |s.decoder| && s.supplier != []
    ensures forall i :: 0 <= i < |s.rob| ==> Alloc(s, c).insts[s.rob[i]] == s.insts[s.rob[i]]
    ensures forall d, i :: 0 <= d < |s.decoder| && 0 <= i < |s.decoder[d]| ==>
      Alloc(s, c).insts[s.decoder[d][i]] == s.insts[s.decoder[d][i]]
  {
    AllocPool(s, c);
    assert forall d, i :: 0 <= d < |s.decoder| && 0 <= i < |s.decoder[d]| ==> s.decoder[d][i] in s.decoder[d];
  }

  lemma AllocDecoderIds(s: State, c: nat, d: nat)
    requires Wf(s) && PoolOk(s) && c < |s.decoder| && s.supplier != [] && d < |s.decoder|
    requires DecoderIdsOk(s, d) && BelowNext(s.rob, s.insts, s.nextId)
    ensures DecoderIdsOk(Alloc(s, c), d)
  {
    AllocOthers(s, c);
    var t := Alloc(s, c);
    assert d != c ==> t.decoder[d] == s.decoder[d];
  }

  lemma AllocIds(s: State, c: nat)
    requires Wf(s) && PoolOk(s) && IdsOk(s) && c < |s.decoder| && s.supplier != []
    ensures IdsOk(Alloc(s, c))
  {
    AllocOthers(s, c);
    forall d | 0 <= d < |s.decoder|
      ensures DecoderIdsOk(Alloc(s, c), d)
    {
      AllocDecoderIds(s, c, d);
    }
  }

  // A recycled instruction is outside the graph, so no live link names it.
  lemma AllocEdges(s: State, c: nat)
    requires Wf(s) && PoolOk(s) && c < |s.decoder| && s.supplier != []
    requires Edges(s.insts, LiveSet(s)) && CountsOk(s.insts, LiveSet(s))
    ensures Edges(Alloc(s, c).insts, LiveSet(s) + {s.supplier[0]})
    ensures CountsOk(Alloc(s, c).insts, LiveSet(s) + {s.supplier[0]})
  {
    var t, h := Alloc(s, c), s.supplier[0];
    AllocPool(s, c);
    var live := LiveSet(s);
    forall x, i | x in live && 0 <= i < |t.insts[x].depIn| && t.insts[x].depIn[i].peer.Some?
      ensures InLinkOk(t.insts, live + {h}, x, i)
    {
      assert InLinkOk(s.insts, live, x, i);
    }
    forall g, k | g in live && 0 <= k < |t.insts[g].depOut| && t.insts[g].depOut[k].peer.Some?
      ensures OutLinkOk(t.insts, live + {h}, g, k)
    {
      assert OutLinkOk(s.insts, live, g, k);
    }
  }

  lemma AllocRegs(s: State, c: nat)
    requires Wf(s) && PoolOk(s) && RegsOk(s) && c < |s.decoder| && s.supplier != []
    ensures RegsOk(Alloc(s, c))
  {
    var t, h := Alloc(s, c), s.supplier[0];
    AllocPool(s, c);
    forall d, r | 0 <= d < |t.regs| && r in t.regs[d]
      ensures Live(t, t.regs[d][r]) && t.regs[d][r] != h
    {
      assert Live(s, s.regs[d][r]);
      assert s.regs[d][r] in LiveSet(s);
      assert t.regs[d][r] in LiveSet(t);
    }
  }

  lemma AllocTrace(s: State, c: nat)
    requires Wf(s) && PoolOk(s) && TraceOk(s) && c < |s.decoder| && s.supplier != []
    ensures TraceOk(Alloc(s, c))
  {
    var t, h := Alloc(s, c), s.supplier[0];
    AllocPool(s, c);
    forall e, g | e in t.trace && g in LiveSet(t)
      ensures EventBefore(e, t.insts[g])
    {
      if g != h {
        assert EventBefore(e, s.insts[g]);
      }
    }
  }

  lemma AllocKeepsInv(s: State, c: nat)
    requires Inv(s) && c < |s.decoder|
    ensures Inv(Alloc(s, c))
  {
    if s.supplier != [] {
      AllocPool(s, c);
      AllocGraph(s, c);
      IssueFrame(s, Alloc(s, c));
      AllocTrace(s, c);
    }
  }

  // ---- new dependencies ----

  lemma NullsOfAppend(links: seq<Link>, l: Link)
    requires l.peer.Some?
    ensures Nulls(links + [l]) == Nulls(links)
  {
    if links != [] {
      assert (links + [l])[1..] == links[1..] + [l];
      NullsOfAppend(links[1..], l);
    }
  }

  lemma CreateDepEdges(insts: seq<Inst>, live: set<nat>, dest: nat, src: nat)
    requires forall h :: h in live ==> h < |insts|
    requires Edges(insts, live) && CountsOk(insts, live)
    requires dest in live && src in live
    requires insts[src].cpu == insts[dest].cpu && insts[src].id < insts[dest].id
    ensures Edges(CreateDep(insts, dest, src), live) && CountsOk(CreateDep(insts, dest, src), live)
  {
    var a := CreateDep(insts, dest, src);
    forall h, i | h in live && 0 <= i < |a[h].depIn| && a[h].depIn[i].peer.Some?
      ensures InLinkOk(a, live, h, i)
    {
      if h != dest || i < |insts[dest].depIn| {
        assert InLinkOk(insts, live, h, i);
      }
    }
    forall g, k | g in live && 0 <= k < |a[g].depOut| && a[g].depOut[k].peer.Some?
      ensures OutLinkOk(a, live, g, k)
    {
      if g != src || k < |insts[src].depOut| {
        assert OutLinkOk(insts, live, g, k);
      }
    }
    NullsOfAppend(insts[dest].depIn, Link(Some(src), |insts[src].depOut|));
  }

  // The new link goes from a live producer that has not written back to an
  // instruction still in the decoder.
  ghost predicate CanDepend(s: State, c: nat, k: nat, src: nat)
    requires Wf(s) && c < |s.decoder| && k < |s.decoder[c]|
  {
    && src < |s.insts| && Live(s, src) && s.insts[src].cpu == c && s.insts[src].status != Ready
    && s.insts[src].id < s.insts[s.decoder[c][k]].id
  }

  ghost function WithDep(s: State, c: nat, k: nat, src: nat): (t: State)
    requires Wf(s) && c < |s.decoder| && k < |s.decoder[c]| && CanDepend(s, c, k, src)
    ensures Wf(t) && SamePlaces(s, t) && SameIdentity(s.insts, t.insts)
  {
    s.(insts := CreateDep(s.insts, s.decoder[c][k], src))
  }

  lemma CreateDepGraph(s: State, c: nat, k: nat, src: nat)
    requires Wf(s) && GraphOk(s) && c < |s.decoder| && k < |s.decoder[c]| && CanDepend(s, c, k, src)
    ensures GraphOk(WithDep(s, c, k, src))
  {
    var t := WithDep(s, c, k, src);
    DecoderEntryOutsideRob(s, c, k);
    PoolFrame(s, t);
    IdsFrame(s, t);
    CreateDepEdges(s.insts, LiveSet(s), s.decoder[c][k], src);
    CreateDepStatus(s, c, k, src);
    CreateDepRegs(s, c, k, src);
  }

  lemma CreateDepIssue(s: State, c: nat, k: nat, src: nat)
    requires Wf(s) && PoolOk(s) && IssueOk(s) && c < |s.decoder| && k < |s.decoder[c]| && CanDepend(s, c, k, src)
    ensures IssueOk(WithDep(s, c, k, src))
  {
    var t := WithDep(s, c, k, src);
    PoolFrame(s, t);
    IssueFrame(s, t);
    TraceFrame(s, t);
  }

  lemma CreateDepStatus(s: State, c: nat, k: nat, src: nat)
    requires Wf(s) && PoolOk(s) && StatusOk(s) && c < |s.decoder| && k < |s.decoder[c]| && CanDepend(s, c, k, src)
    ensures StatusOk(WithDep(s, c, k, src))
  {
    var t := WithDep(s, c, k, src);
    DecoderEntryOutsideRob(s, c, k);
    PoolFrame(s, t);
    forall h | h in t.rob
      ensures RobStatusOk(t.insts[h])
    {
      assert RobStatusOk(s.insts[h]);
    }
  }

  lemma CreateDepRegs(s: State, c: nat, k: nat, src: nat)
    requires Wf(s) && PoolOk(s) && RegsOk(s) && c < |s.decoder| && k < |s.decoder[c]| && CanDepend(s, c, k, src)
    ensures RegsOk(WithDep(s, c, k, src))
  {
    var t := WithDep(s, c, k, src);
    PoolFrame(s, t);
    forall d, r | 0 <= d < |t.regs| && r in t.regs[d]
      ensures Live(t, t.regs[d][r])
    {
      assert Live(s, s.regs[d][r]);
    }
  }

  lemma ReadRegKeepsInv(s: State, c: nat, k: nat, r: nat)
    requires Inv(s) && c < |s.decoder| && k < |s.decoder[c]|
    requires r in s.regs[c] ==> s.insts[s.regs[c][r]].id < s.insts[s.decoder[c][k]].id
    ensures Inv(ReadReg(s, c, k, r))
  {
    if r in s.regs[c] {
      CreateDepGraph(s, c, k, s.regs[c][r]);
      CreateDepIssue(s, c, k, s.regs[c][r]);
    }
  }

  lemma LinkMicrocodeKeepsInv(s: State, c: nat, k: nat, j: nat)
    requires Inv(s) && c < |s.decoder| && j < k < |s.decoder[c]|
    ensures s.decoder[c][j] != s.decoder[c][k]
    ensures Inv(LinkMicrocode(s, c, k, j))
  {
    DecoderEntryOutsideRob(s, c, j);
    DecoderEntryOutsideRob(s, c, k);
    assert DecoderIdsOk(s, c);
    CreateDepGraph(s, c, k, s.decoder[c][j]);
    CreateDepIssue(s, c, k, s.decoder[c][j]);
  }

  lemma WriteRegKeepsInv(s: State, c: nat, k: nat, r: nat)
    requires Inv(s) && c < |s.decoder| && k < |s.decoder[c]|
    ensures Inv(WriteReg(s, c, k, r))
  {
    var t := WriteReg(s, c, k, r);
    DecoderEntryOutsideRob(s, c, k);
    PoolFrame(s, t);
    IdsFrame(s, t);
    WriteRegEdges(s.insts, LiveSet(s), s.decoder[c][k], r);
    WriteRegStatus(s, c, k, r);
    WriteRegRegs(s, c, k, r);
    IssueFrame(s, t);
    TraceFrame(s, t);
  }

  lemma WriteRegEdges(insts: seq<Inst>, live: set<nat>, h: nat, r: nat)
    requires forall g :: g in live ==> g < |insts|
    requires h < |insts| && Edges(insts, live) && CountsOk(insts, live)
    ensures Edges(insts[h := insts[h].(outRegs := insts[h].outRegs + [r])], live)
    ensures CountsOk(insts[h := insts[h].(outRegs := insts[h].outRegs + [r])], live)
  {
    var a := insts[h := insts[h].(outRegs := insts[h].outRegs + [r])];
    forall x, i | x in live && 0 <= i < |a[x].depIn| && a[x].depIn[i].peer.Some?
      ensures InLinkOk(a, live, x, i)
    {
      assert InLinkOk(insts, live, x, i);
    }
    forall g, k | g in live && 0 <= k < |a[g].depOut| && a[g].depOut[k].peer.Some?
      ensures OutLinkOk(a, live, g, k)
    {
      assert OutLinkOk(insts, live, g, k);
    }
  }

  lemma WriteRegStatus(s: State, c: nat, k: nat, r: nat)
    requires Wf(s) && PoolOk(s) && StatusOk(s) && c < |s.decoder| && k < |s.decoder[c]|
    ensures StatusOk(WriteReg(s, c, k, r))
  {
    var t := WriteReg(s, c, k, r);
    DecoderEntryOutsideRob(s, c, k);
    PoolFrame(s, t);
  }

  lemma WriteRegRegs(s: State, c: nat, k: nat, r: nat)
    requires Wf(s) && PoolOk(s) && StatusOk(s) && RegsOk(s) && c < |s.decoder| && k < |s.decoder[c]|
    ensures RegsOk(WriteReg(s, c, k, r))
  {
    var t, h := WriteReg(s, c, k, r), s.decoder[c][k];
    DecoderEntryOutsideRob(s, c, k);
    PoolFrame(s, t);
    forall d, q | 0 <= d < |t.regs| && q in t.regs[d]
      ensures Live(t, t.regs[d][q]) && t.insts[t.regs[d][q]].cpu == d
      ensures t.insts[t.regs[d][q]].status != Ready && q in t.insts[t.regs[d][q]].outRegs
    {
      if d != c || q != r {
        assert q in s.regs[d] && Live(s, s.regs[d][q]);
      } else {
        assert t.insts[h].outRegs[|s.insts[h].outRegs|] == r;
      }
    }
  }
}
