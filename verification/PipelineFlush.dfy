// The full flush and commit keep the invariant unconditionally.
module PipelineFlush {
  import opened PipelineState
  import opened PipelineSteps
  import opened PipelineInvariant
  import opened PipelineFrame
  import opened PipelineDispatch
  import opened PipelineIssue
  import opened PipelineSquash

  lemma FlushSquashes(s: State, c: nat)
    requires Wf(s) && c < |s.decoder|
    ensures Squashing(s, Flush(s, c), c, 0, true)
    ensures Flush(s, c).insts == s.insts
  {
  }

  lemma FlushLive(s: State, c: nat)
    requires Wf(s) && PoolOk(s) && c < |s.decoder|
    ensures LiveSet(Flush(s, c)) <= LiveSet(s)
    ensures forall x :: 0 <= x < |s.insts| ==> (x in LiveSet(Flush(s, c)) <==> x in LiveSet(s) && s.insts[x].cpu != c)
  {
    FlushSquashes(s, c);
    SquashLive(s, Flush(s, c), c, 0, true);
    forall x | x in s.decoder[c] ensures s.insts[x].cpu == c { DecoderMember(s, c, x); }
  }

  lemma FlushGraph(s: State, c: nat)
    requires Wf(s) && GraphOk(s) && c < |s.decoder|
    ensures GraphOk(Flush(s, c))
  {
    var t := Flush(s, c);
    FlushSquashes(s, c);
    FlushLive(s, c);
    assert PoolOk(t) by { SquashPool(s, t, c, 0, true); }
    assert IdsOk(t) by { SquashIds(s, t, c, 0, true); }
    assert StatusOk(t) by { SquashStatus(s, t, c, 0, true); }
    assert Edges(t.insts, LiveSet(t)) by { FlushEdges(s, c); }
    assert RegsOk(t) by { FlushRegs(s, c); }
  }

  lemma FlushEdges(s: State, c: nat)
    requires Wf(s) && PoolOk(s) && Edges(s.insts, LiveSet(s)) && CountsOk(s.insts, LiveSet(s)) && c < |s.decoder|
    ensures Edges(s.insts, LiveSet(Flush(s, c)))
  {
    FlushLive(s, c);
    var live, rest := LiveSet(s), LiveSet(Flush(s, c));
    forall x, i | x in rest && 0 <= i < |s.insts[x].depIn| && s.insts[x].depIn[i].peer.Some?
      ensures s.insts[x].depIn[i].peer.value in rest
    {
      assert InLinkOk(s.insts, live, x, i);
    }
    forall x, k | x in rest && 0 <= k < |s.insts[x].depOut| && s.insts[x].depOut[k].peer.Some?
      ensures s.insts[x].depOut[k].peer.value in rest
    {
      assert OutLinkOk(s.insts, live, x, k);
      assert InLinkOk(s.insts, live, s.insts[x].depOut[k].peer.value, s.insts[x].depOut[k].back);
    }
    EdgesRestrict(s.insts, live, rest);
  }

  lemma FlushRegs(s: State, c: nat)
    requires Wf(s) && PoolOk(s) && RegsOk(s) && c < |s.decoder|
    ensures RegsOk(Flush(s, c))
  {
    var t := Flush(s, c);
    FlushLive(s, c);
    forall d, r | 0 <= d < |t.regs| && r in t.regs[d]
      ensures Live(t, t.regs[d][r])
    {
      assert d != c && Live(s, s.regs[d][r]);
      assert s.regs[d][r] in LiveSet(s);
      assert t.regs[d][r] in LiveSet(t);
    }
  }

  lemma FlushFlags(s: State, c: nat)
    requires Wf(s) && HeadsOk(s) && c < |s.decoder|
    ensures FlagsKept(s, s.writeReady, Flush(s, c).writeReady, c, 0)
    ensures FlagsKept(s, s.mustIssue, Flush(s, c).mustIssue, c, 0)
  {
    assert forall d :: 0 <= d < |s.writeReady| && s.writeReady[d] ==> FlagOk(s, d, LoadStoreQueue);
    assert forall d :: 0 <= d < |s.mustIssue| && s.mustIssue[d] ==> FlagOk(s, d, IoQueue);
  }

  lemma FlushKeepsInv(s: State, c: nat)
    requires Inv(s) && c < |s.decoder|
    requires forall i :: 0 <= i < |s.response| ==> s.insts[s.response[i]].cpu != c
    ensures Inv(Flush(s, c))
  {
    FlushGraph(s, c);
    FlushSquashes(s, c);
    FlushFlags(s, c);
    assert IssueOk(Flush(s, c)) by { SquashIssue(s, Flush(s, c), c, 0, true); }
  }

  // ---- commit ----

  // The head leaves the reorder buffer for the supplier.
  ghost function Retire(s: State): (t: State)
    requires Wf(s) && s.rob != []
    ensures Wf(t)
  {
    var x := s.insts[s.rob[0]];
    s.(trace := s.trace + [Committed(x.cpu, x.id)], rob := s.rob[1..], supplier := s.supplier + [s.rob[0]])
  }

  lemma RetirePool(s: State)
    requires Wf(s) && PoolOk(s) && IdsOk(s) && s.rob != []
    ensures PoolOk(Retire(s)) && IdsOk(Retire(s))
    ensures LiveSet(Retire(s)) == LiveSet(s) - {s.rob[0]}
  {
    var t, h := Retire(s), s.rob[0];
    assert s.rob == [h] + t.rob;
    assert h !in t.rob && h in s.rob;
    assert Live(s, h) && h !in s.supplier;
    forall x | 0 <= x < |s.insts|
      ensures Live(t, x) <==> Live(s, x) && x != h
    {
    }
    ConcatDistinct(s.supplier, [h]);
    forall c | 0 <= c < |t.decoder|
      ensures DecoderIdsOk(t, c)
    {
      assert DecoderIdsOk(s, c);
      assert forall i :: 0 <= i < |t.rob| ==> t.rob[i] == s.rob[i + 1];
    }
  }

  // A written-back instruction has no links left in either direction.
  lemma RetireGraph(s: State)
    requires Wf(s) && GraphOk(s) && s.rob != [] && s.insts[s.rob[0]].status == Ready
    ensures GraphOk(Retire(s))
  {
    var t, h := Retire(s), s.rob[0];
    RetirePool(s);
    assert h in s.rob && h in LiveSet(s);
    assert Edges(t.insts, LiveSet(t)) by { RetireEdges(s); }
    assert StatusOk(t) by {
      assert forall x :: x in t.rob ==> x in s.rob;
    }
    assert RegsOk(t) by { RetireRegs(s); }
  }

  lemma RetireEdges(s: State)
    requires Wf(s) && PoolOk(s) && IdsOk(s) && StatusOk(s) && s.rob != [] && s.insts[s.rob[0]].status == Ready
    requires Edges(s.insts, LiveSet(s)) && CountsOk(s.insts, LiveSet(s))
    ensures Edges(s.insts, LiveSet(Retire(s)))
  {
    var h := s.rob[0];
    var live, rest := LiveSet(s), LiveSet(Retire(s));
    RetirePool(s);
    assert h in s.rob && h in live && AllNull(s.insts[h].depOut);
    assert AllNull(s.insts[h].depIn) by {
      assert RobStatusOk(s.insts[h]);
      NullsBound(s.insts[h].depIn);
    }
    forall x, i | x in rest && 0 <= i < |s.insts[x].depIn| && s.insts[x].depIn[i].peer.Some?
      ensures s.insts[x].depIn[i].peer.value in rest
    {
      assert InLinkOk(s.insts, live, x, i);
    }
    forall x, k | x in rest && 0 <= k < |s.insts[x].depOut| && s.insts[x].depOut[k].peer.Some?
      ensures s.insts[x].depOut[k].peer.value in rest
    {
      assert OutLinkOk(s.insts, live, x, k);
    }
    EdgesRestrict(s.insts, live, rest);
  }

  lemma RetireRegs(s: State)
    requires Wf(s) && PoolOk(s) && IdsOk(s) && RegsOk(s) && s.rob != [] && s.insts[s.rob[0]].status == Ready
    ensures RegsOk(Retire(s))
  {
    var t := Retire(s);
    RetirePool(s);
    forall c, r | 0 <= c < |t.regs| && r in t.regs[c]
      ensures Live(t, t.regs[c][r])
    {
      assert Live(s, s.regs[c][r]);
      assert s.regs[c][r] in LiveSet(s);
      assert t.regs[c][r] in LiveSet(t);
    }
  }

  lemma RetireQueue(s: State, q: seq<nat>, kind: Queue)
    requires Wf(s) && IdsOk(s) && AllBelow(q, |s.insts|) && QueueOk(s, q, kind)
    requires s.rob != [] && s.insts[s.rob[0]].status == Ready
    ensures QueueOk(Retire(s), q, kind)
  {
    var t, h := Retire(s), s.rob[0];
    assert s.rob == [h] + t.rob && h in s.rob;
    forall i | 0 <= i < |q|
      ensures q[i] in t.rob
    {
      assert q[i] in s.rob && q[i] in q;
    }
  }

  lemma RetireUnits(s: State)
    requires Wf(s) && UnitsOk(s) && s.rob != [] && s.insts[s.rob[0]].status == Ready
    ensures UnitsOk(Retire(s))
  {
    assert s.rob == [s.rob[0]] + Retire(s).rob;
  }

  lemma RetireHeads(s: State)
    requires Wf(s) && IdsOk(s) && HeadsOk(s) && s.rob != [] && s.insts[s.rob[0]].status == Ready
    ensures HeadsOk(Retire(s))
  {
    var t, h := Retire(s), s.rob[0];
    assert s.rob == [h] + t.rob;
    assert h !in t.rob;
    assert forall x :: x in t.rob ==> x in s.rob && x != h;
    assert forall d :: 0 <= d < |s.writeReady| ==> !s.writeReady[d];
    assert forall d :: 0 <= d < |s.mustIssue| ==> !s.mustIssue[d];
  }

  // Recording the commit of the head; the same event opens a flush at commit.
  lemma CommitEvent(s: State, t: State)
    requires Wf(s) && Wf(t) && PoolOk(s) && IdsOk(s) && TraceOk(s) && s.rob != []
    requires t.insts == s.insts && t.nextId == s.nextId
    requires t.trace == s.trace + [Committed(s.insts[s.rob[0]].cpu, s.insts[s.rob[0]].id)]
    requires LiveSet(t) <= LiveSet(s) - {s.rob[0]}
    ensures TraceOk(t)
  {
    var h := s.rob[0];
    assert h in s.rob && h in LiveSet(s);
    var e0 := Committed(s.insts[h].cpu, s.insts[h].id);
    forall e, x | e in t.trace && x in LiveSet(t)
      ensures EventBefore(e, t.insts[x])
    {
      if e in s.trace {
        assert EventBefore(e, s.insts[x]);
      } else if s.insts[x].cpu == s.insts[h].cpu {
        HeadIsOldest(s, x);
      }
    }
    forall i, j | 0 <= i < j < |t.trace| && t.trace[i].cpu == t.trace[j].cpu
      ensures t.trace[i].Committed? && t.trace[j].Committed? ==> t.trace[i].id < t.trace[j].id
    {
      assert t.trace[i] in s.trace && EventBefore(t.trace[i], s.insts[h]);
    }
  }

  lemma RetireKeepsInv(s: State)
    requires Inv(s) && s.rob != [] && s.insts[s.rob[0]].status == Ready
    ensures Inv(Retire(s))
  {
    var t := Retire(s);
    RetireGraph(s);
    assert IssueOk(t) by {
      assert QueuesOk(t) by {
        RetireQueue(s, s.generic, GenericQueue);
        RetireQueue(s, s.ls, LoadStoreQueue);
        RetireQueue(s, s.io, IoQueue);
      }
      assert UnitsOk(t) by { RetireUnits(s); }
      assert HeadsOk(t) by { RetireHeads(s); }
      assert TraceOk(t) by {
        RetirePool(s);
        CommitEvent(s, t);
      }
    }
  }

  lemma TraceReplaced(s: State, t: State)
    requires Inv(s) && t == s.(trace := t.trace)
    ensures Wf(t) && LiveSet(t) == LiveSet(s) && GraphOk(t) && QueuesOk(t) && UnitsOk(t) && HeadsOk(t)
  {
    PoolFrame(s, t);
    assert GraphOk(t) by { GraphFrame(s, t); }
    IssueFrame(s, t);
  }

  lemma FlushIgnoresTrace(s: State, c: nat, trace: seq<Event>)
    requires Wf(s) && c < |s.decoder|
    ensures Wf(s.(trace := trace)) && Flush(s.(trace := trace), c) == Flush(s, c).(trace := trace)
  {
  }

  // Commit of an instruction that flushes its cpu.
  lemma CommitFlushKeepsInv(s: State)
    requires Inv(s) && s.rob != [] && s.insts[s.rob[0]].status == Ready && s.response == []
    ensures
      var x := s.insts[s.rob[0]];
      Inv(Flush(s.(trace := s.trace + [Committed(x.cpu, x.id)]), x.cpu))
  {
    hide Flush;
    var x := s.insts[s.rob[0]];
    var trace := s.trace + [Committed(x.cpu, x.id)];
    FlushIgnoresTrace(s, x.cpu, trace);
    FlushKeepsInv(s, x.cpu);
    TraceReplaced(Flush(s, x.cpu), Flush(s.(trace := trace), x.cpu));
    CommitFlushTrace(s);
  }

  lemma CommitFlushTrace(s: State)
    requires Wf(s) && PoolOk(s) && IdsOk(s) && TraceOk(s) && s.rob != []
    ensures
      var x := s.insts[s.rob[0]];
      TraceOk(Flush(s.(trace := s.trace + [Committed(x.cpu, x.id)]), x.cpu))
  {
    var x := s.insts[s.rob[0]];
    var trace := s.trace + [Committed(x.cpu, x.id)];
    hide Flush, TraceOk;
    var u, t := Flush(s, x.cpu), Flush(s.(trace := trace), x.cpu);
    FlushIgnoresTrace(s, x.cpu, trace);
    FlushSquashes(s, x.cpu);
    FlushLive(s, x.cpu);
    PoolFrame(u, t);
    CommitEvent(s, t);
  }

  lemma ArrivedHeads(s: State)
    requires Wf(s) && HeadsOk(s) && s.rob != [] && s.insts[s.rob[0]].status == DepReady
    ensures HeadsOk(Arrived(s, s.rob[0]))
  {
    var t := Arrived(s, s.rob[0]);
    forall d | 0 <= d < |t.writeReady| && t.writeReady[d] ensures FlagOk(t, d, LoadStoreQueue) {
      if s.writeReady[d] { assert FlagOk(s, d, LoadStoreQueue); }
    }
    forall d | 0 <= d < |t.mustIssue| && t.mustIssue[d] ensures FlagOk(t, d, IoQueue) {
      if s.mustIssue[d] { assert FlagOk(s, d, IoQueue); }
    }
  }

  // Only a flag differs.
  lemma FlagsChange(s: State, t: State)
    requires Inv(s) && t == s.(writeReady := t.writeReady, mustIssue := t.mustIssue)
    requires Wf(t) && HeadsOk(t)
    ensures Inv(t)
  {
    PoolFrame(s, t);
    assert GraphOk(t) by { GraphFrame(s, t); }
    assert QueuesOk(t) && UnitsOk(t) && TraceOk(t);
  }

  lemma ArrivedKeepsInv(s: State)
    requires Inv(s) && s.rob != [] && s.insts[s.rob[0]].status == DepReady
    ensures Inv(Arrived(s, s.rob[0]))
  {
    ArrivedHeads(s);
    FlagsChange(s, Arrived(s, s.rob[0]));
  }

  lemma {:induction false} CommitKeepsInv(s: State)
    requires Inv(s) && s.response == []
    ensures Inv(Commit(s))
    decreases |s.rob|
  {
    if s.rob != [] {
      var x := s.insts[s.rob[0]];
      if x.status == Ready {
        if FlushesAtCommit(x) {
          CommitFlushKeepsInv(s);
        } else {
          RetireKeepsInv(s);
          CommitKeepsInv(Retire(s));
        }
      } else if x.status == DepReady {
        ArrivedKeepsInv(s);
      }
    }
  }
}
