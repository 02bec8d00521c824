// Dispatch moves the oldest decoder entry to the reorder buffer and its queue.
module PipelineDispatch {
  import opened PipelineState
  import opened PipelineSteps
  import opened PipelineInvariant
  import opened PipelineFrame
  import opened PipelineDecode

  // The decoder's tables give a micro-op without functional unit no dependencies.
  ghost predicate CanDispatch(s: State, c: nat)
    requires Wf(s)
  {
    && c < |s.decoder| && s.decoder[c] != []
    && var x := s.insts[s.decoder[c][0]];
    x.kind == NoUnit ==> x.depIn == [] && x.depOut == [] && x.outRegs == []
  }

  ghost predicate Accepted(s: State, c: nat)
    requires Wf(s) && CanDispatch(s, c)
  {
    !QueueFull(s, QueueOf(s.insts[s.decoder[c][0]].kind))
  }

  lemma NullsBound(links: seq<Link>)
    ensures Nulls(links) <= |links|
    ensures Nulls(links) == |links| <==> AllNull(links)
  {
    if links != [] {
      NullsBound(links[1..]);
      assert AllNull(links) <==> links[0].peer.None? && AllNull(links[1..]) by {
        assert forall i :: 1 <= i < |links| ==> links[i] == links[1..][i - 1];
      }
    }
  }

  lemma DispatchPool(s: State, c: nat)
    requires Wf(s) && PoolOk(s) && IdsOk(s) && CanDispatch(s, c) && Accepted(s, c)
    ensures PoolOk(Dispatch(s, c)) && LiveSet(Dispatch(s, c)) == LiveSet(s)
    ensures SameIdentity(s.insts, Dispatch(s, c).insts) && SameLinks(s.insts, Dispatch(s, c).insts)
  {
    var t, h := Dispatch(s, c), s.decoder[c][0];
    DecoderEntryOutsideRob(s, c, 0);
    assert DecoderIdsOk(s, c);
    assert s.decoder[c] == [h] + s.decoder[c][1..];
    assert h !in s.decoder[c][1..];
    forall g | 0 <= g < |s.insts|
      ensures Live(t, g) <==> Live(s, g)
      ensures !(g in t.rob && g in t.decoder[t.insts[g].cpu])
    {
    }
  }

  lemma DispatchIds(s: State, c: nat)
    requires Wf(s) && PoolOk(s) && IdsOk(s) && CanDispatch(s, c) && Accepted(s, c)
    ensures IdsOk(Dispatch(s, c))
  {
    var t, h := Dispatch(s, c), s.decoder[c][0];
    DispatchPool(s, c);
    assert DecoderIdsOk(s, c);
    DecoderEntryOutsideRob(s, c, 0);
    assert Ascending(t.rob, t.insts) && BelowNext(t.rob, t.insts, t.nextId) by {
      assert Ascending(s.rob, s.insts) && Before(s.rob, s.decoder[c], s.insts);
    }
    forall d | 0 <= d < |t.decoder|
      ensures DecoderIdsOk(t, d)
    {
      DispatchDecoderIds(s, c, d);
    }
  }

  lemma DispatchDecoderIds(s: State, c: nat, d: nat)
    requires Wf(s) && PoolOk(s) && CanDispatch(s, c) && Accepted(s, c) && d < |s.decoder|
    requires DecoderIdsOk(s, d)
    requires SameIdentity(s.insts, Dispatch(s, c).insts)
    ensures DecoderIdsOk(Dispatch(s, c), d)
  {
    var t, h := Dispatch(s, c), s.decoder[c][0];
    if d == c {
      DispatchOwnDecoder(s, t, c);
    } else {
      DispatchOtherDecoder(s, t, c, d);
    }
  }

  lemma DispatchOwnDecoder(s: State, t: State, c: nat)
    requires Wf(s) && Wf(t) && c < |s.decoder| == |t.decoder| && s.decoder[c] != []
    requires DecoderIdsOk(s, c) && SameIdentity(s.insts, t.insts)
    requires t.decoder[c] == s.decoder[c][1..] && t.rob == s.rob + [s.decoder[c][0]] && t.nextId == s.nextId
    ensures DecoderIdsOk(t, c)
  {
    assert forall i :: 0 <= i < |t.decoder[c]| ==> t.decoder[c][i] == s.decoder[c][i + 1];
  }

  lemma DispatchOtherDecoder(s: State, t: State, c: nat, d: nat)
    requires Wf(s) && Wf(t) && c < |s.decoder| == |t.decoder| && s.decoder[c] != [] && d < |s.decoder| && d != c
    requires DecoderIdsOk(s, d) && SameIdentity(s.insts, t.insts) && s.insts[s.decoder[c][0]].cpu == c
    requires forall i :: 0 <= i < |s.decoder[d]| ==> s.insts[s.decoder[d][i]].cpu == d
    requires t.decoder[d] == s.decoder[d] && t.rob == s.rob + [s.decoder[c][0]] && t.nextId == s.nextId
    ensures DecoderIdsOk(t, d)
  {
  }

  lemma DispatchStatus(s: State, c: nat)
    requires Wf(s) && PoolOk(s) && IdsOk(s) && StatusOk(s) && CountsOk(s.insts, LiveSet(s))
    requires CanDispatch(s, c) && Accepted(s, c)
    ensures StatusOk(Dispatch(s, c))
  {
    var t, h := Dispatch(s, c), s.decoder[c][0];
    DecoderEntryOutsideRob(s, c, 0);
    DispatchPool(s, c);
    NullsBound(s.insts[h].depIn);
    forall g | g in t.rob
      ensures RobStatusOk(t.insts[g])
    {
      if g != h {
        assert g in s.rob && RobStatusOk(s.insts[g]);
      }
    }
    assert DecoderIdsOk(s, c);
  }

  lemma DispatchRegs(s: State, c: nat)
    requires Wf(s) && PoolOk(s) && IdsOk(s) && RegsOk(s) && CanDispatch(s, c) && Accepted(s, c)
    ensures RegsOk(Dispatch(s, c))
  {
    var t, h := Dispatch(s, c), s.decoder[c][0];
    DispatchPool(s, c);
    forall d, r | 0 <= d < |t.regs| && r in t.regs[d]
      ensures Live(t, t.regs[d][r]) && t.insts[t.regs[d][r]].status != Ready
    {
      assert Live(s, s.regs[d][r]);
      assert s.regs[d][r] in LiveSet(t);
    }
  }

  lemma DispatchQueue(s: State, c: nat, q: seq<nat>, kind: Queue)
    requires Wf(s) && PoolOk(s) && IdsOk(s) && CanDispatch(s, c) && Accepted(s, c)
    requires kind != NoQueue && AllBelow(q, |s.insts|) && QueueOk(s, q, kind)
    ensures
      var h := s.decoder[c][0];
      var q' := if QueueOf(s.insts[h].kind) == kind then q + [h] else q;
      AllBelow(q', |s.insts|) && QueueOk(Dispatch(s, c), q', kind)
  {
    var t, h := Dispatch(s, c), s.decoder[c][0];
    DecoderEntryOutsideRob(s, c, 0);
    var q' := if QueueOf(s.insts[h].kind) == kind then q + [h] else q;
    assert forall i :: 0 <= i < |q| ==> q[i] in s.rob && q[i] != h && t.insts[q[i]] == s.insts[q[i]];
    assert Ascending(q', t.insts) by { DispatchAscending(s, c, q); }
    forall g | g in t.rob
      ensures g in q' <==> QueueOf(t.insts[g].kind) == kind && t.insts[g].status != Ready
    {
      if g != h {
        assert g in s.rob;
      }
    }
  }

  // A decoder entry is younger than everything dispatched before it.
  lemma DispatchAscending(s: State, c: nat, q: seq<nat>)
    requires Wf(s) && PoolOk(s) && IdsOk(s) && CanDispatch(s, c) && Accepted(s, c)
    requires AllBelow(q, |s.insts|) && Ascending(q, s.insts) && forall i :: 0 <= i < |q| ==> q[i] in s.rob
    ensures Ascending(q + [s.decoder[c][0]], Dispatch(s, c).insts) && Ascending(q, Dispatch(s, c).insts)
  {
    var h := s.decoder[c][0];
    forall i | 0 <= i < |q| && s.insts[q[i]].cpu == s.insts[h].cpu
      ensures s.insts[q[i]].id < s.insts[h].id
    {
      assert DecoderIdsOk(s, c);
      var a :| 0 <= a < |s.rob| && s.rob[a] == q[i];
      assert Before(s.rob, s.decoder[c], s.insts);
    }
  }

  lemma DispatchUnits(s: State, c: nat)
    requires Wf(s) && PoolOk(s) && UnitsOk(s) && CanDispatch(s, c) && Accepted(s, c)
    ensures UnitsOk(Dispatch(s, c))
  {
    DecoderEntryOutsideRob(s, c, 0);
  }

  lemma DispatchHeads(s: State, c: nat)
    requires Wf(s) && PoolOk(s) && HeadsOk(s) && CanDispatch(s, c) && Accepted(s, c)
    ensures HeadsOk(Dispatch(s, c))
  {
    var t, h := Dispatch(s, c), s.decoder[c][0];
    DecoderEntryOutsideRob(s, c, 0);
    if s.rob != [] {
      assert t.rob[0] == s.rob[0] && s.rob[0] in s.rob;
    }
    forall g | g in t.rob && Ordered(t.insts[g].kind) && t.insts[g].status in {Executing, Ready}
      ensures g == t.rob[0]
    {
      assert g != h;
    }
  }

  lemma DispatchTrace(s: State, c: nat)
    requires Wf(s) && PoolOk(s) && IdsOk(s) && StatusOk(s) && TraceOk(s) && CanDispatch(s, c) && Accepted(s, c)
    ensures TraceOk(Dispatch(s, c))
  {
    DispatchPool(s, c);
    DecoderEntryOutsideRob(s, c, 0);
    TraceFrame(s, Dispatch(s, c));
  }

  lemma DispatchKeepsInv(s: State, c: nat)
    requires Inv(s) && CanDispatch(s, c)
    ensures Inv(Dispatch(s, c))
  {
    if Accepted(s, c) {
      DispatchGraph(s, c);
      DispatchIssue(s, c);
    }
  }

  lemma DispatchGraph(s: State, c: nat)
    requires Wf(s) && GraphOk(s) && CanDispatch(s, c) && Accepted(s, c)
    ensures GraphOk(Dispatch(s, c))
  {
    DispatchPool(s, c);
    DispatchIds(s, c);
    EdgesFrame(s.insts, Dispatch(s, c).insts, LiveSet(s));
    DispatchStatus(s, c);
    DispatchRegs(s, c);
  }

  lemma DispatchQueues(s: State, c: nat)
    requires Wf(s) && PoolOk(s) && IdsOk(s) && QueuesOk(s) && CanDispatch(s, c) && Accepted(s, c)
    ensures QueuesOk(Dispatch(s, c))
  {
    var t := Dispatch(s, c);
    assert QueueOk(t, t.generic, GenericQueue) by { DispatchQueue(s, c, s.generic, GenericQueue); }
    assert QueueOk(t, t.ls, LoadStoreQueue) by { DispatchQueue(s, c, s.ls, LoadStoreQueue); }
    assert QueueOk(t, t.io, IoQueue) by { DispatchQueue(s, c, s.io, IoQueue); }
  }

  lemma DispatchIssue(s: State, c: nat)
    requires Wf(s) && PoolOk(s) && IdsOk(s) && StatusOk(s) && IssueOk(s) && CanDispatch(s, c) && Accepted(s, c)
    ensures IssueOk(Dispatch(s, c))
  {
    DispatchQueues(s, c);
    DispatchUnits(s, c);
    DispatchHeads(s, c);
    DispatchTrace(s, c);
  }
}
