// Parts of the invariant that survive because what they speak of is unchanged.
module PipelineFrame {
  import opened PipelineState
  import opened PipelineInvariant

  ghost predicate SameIdentity(a: seq<Inst>, b: seq<Inst>) {
    |a| == |b| && forall h :: 0 <= h < |a| ==> a[h].cpu == b[h].cpu && a[h].id == b[h].id
  }

  ghost predicate SameLinks(a: seq<Inst>, b: seq<Inst>) {
    && |a| == |b|
    && forall h :: 0 <= h < |a| ==>
      && a[h].depIn == b[h].depIn && a[h].depOut == b[h].depOut && a[h].resolved == b[h].resolved
      && a[h].outRegs == b[h].outRegs
  }

  ghost predicate SamePlaces(s: State, t: State) {
    s.supplier == t.supplier && s.rob == t.rob && s.decoder == t.decoder && s.nextId == t.nextId
  }

  lemma PoolFrame(s: State, t: State)
    requires Wf(s) && Wf(t) && SamePlaces(s, t) && SameIdentity(s.insts, t.insts)
    ensures LiveSet(s) == LiveSet(t)
    ensures PoolOk(s) ==> PoolOk(t)
  {
    assert forall h :: 0 <= h < |s.insts| ==> (Live(s, h) <==> Live(t, h));
  }

  lemma IdsFrame(s: State, t: State)
    requires Wf(s) && Wf(t) && SamePlaces(s, t) && SameIdentity(s.insts, t.insts)
    requires IdsOk(s)
    ensures IdsOk(t)
  {
    forall c | 0 <= c < |t.decoder|
      ensures DecoderIdsOk(t, c)
    {
      assert DecoderIdsOk(s, c);
    }
  }

  lemma EdgesFrame(a: seq<Inst>, b: seq<Inst>, live: set<nat>)
    requires SameIdentity(a, b) && SameLinks(a, b)
    requires forall h :: h in live ==> h < |a|
    requires Edges(a, live) && CountsOk(a, live)
    ensures Edges(b, live) && CountsOk(b, live)
  {
    forall h, i | h in live && 0 <= i < |b[h].depIn| && b[h].depIn[i].peer.Some?
      ensures InLinkOk(b, live, h, i)
    {
      assert InLinkOk(a, live, h, i);
    }
    forall g, k | g in live && 0 <= k < |b[g].depOut| && b[g].depOut[k].peer.Some?
      ensures OutLinkOk(b, live, g, k)
    {
      assert OutLinkOk(a, live, g, k);
    }
  }

  lemma RegsFrame(s: State, t: State)
    requires Wf(s) && Wf(t) && SamePlaces(s, t) && SameIdentity(s.insts, t.insts) && SameLinks(s.insts, t.insts)
    requires s.regs == t.regs && RegsOk(s)
    requires forall h :: 0 <= h < |s.insts| && s.insts[h].status != Ready ==> t.insts[h].status != Ready
    ensures RegsOk(t)
  {
    forall c, r | 0 <= c < |t.regs| && r in t.regs[c]
      ensures Live(t, t.regs[c][r])
    {
      assert Live(s, s.regs[c][r]);
    }
  }

  // Nothing in the graph moved; only statuses may have changed.
  lemma GraphFrame(s: State, t: State)
    requires Wf(s) && Wf(t) && SamePlaces(s, t) && SameIdentity(s.insts, t.insts) && SameLinks(s.insts, t.insts)
    requires s.regs == t.regs && GraphOk(s) && StatusOk(t)
    requires forall h :: 0 <= h < |s.insts| && s.insts[h].status != Ready ==> t.insts[h].status != Ready
    ensures GraphOk(t)
  {
    PoolFrame(s, t);
    IdsFrame(s, t);
    EdgesFrame(s.insts, t.insts, LiveSet(s));
    RegsFrame(s, t);
  }

  // Instructions in the reorder buffer kept everything the issue side looks at.
  ghost predicate SameInRob(s: State, t: State)
    requires Wf(s) && Wf(t)
  {
    && s.rob == t.rob && |s.insts| == |t.insts|
    && forall h :: h in s.rob ==>
      && s.insts[h].cpu == t.insts[h].cpu && s.insts[h].id == t.insts[h].id
      && s.insts[h].kind == t.insts[h].kind && s.insts[h].status == t.insts[h].status
  }

  lemma QueueFrame(s: State, t: State, q: seq<nat>, kind: Queue)
    requires Wf(s) && Wf(t) && SameInRob(s, t)
    requires AllBelow(q, |s.insts|) && QueueOk(s, q, kind)
    ensures QueueOk(t, q, kind)
  {
  }

  lemma IssueFrame(s: State, t: State)
    requires Wf(s) && Wf(t) && SameInRob(s, t)
    requires s.generic == t.generic && s.ls == t.ls && s.io == t.io && s.units == t.units && s.response == t.response
    requires s.writeReady == t.writeReady && s.mustIssue == t.mustIssue
    requires QueuesOk(s) && UnitsOk(s) && HeadsOk(s)
    ensures QueuesOk(t) && UnitsOk(t) && HeadsOk(t)
  {
    QueueFrame(s, t, s.generic, GenericQueue);
    QueueFrame(s, t, s.ls, LoadStoreQueue);
    QueueFrame(s, t, s.io, IoQueue);
  }

  lemma HeadBelow(q: seq<nat>, insts: seq<Inst>)
    requires AllBelow(q, |insts|) && Ascending(q, insts) && q != []
    ensures forall y :: y in q[1..] && insts[q[0]].cpu == insts[y].cpu ==> insts[q[0]].id < insts[y].id
  {
    forall y | y in q[1..] && insts[q[0]].cpu == insts[y].cpu
      ensures insts[q[0]].id < insts[y].id
    {
      var p :| 0 <= p < |q[1..]| && q[1..][p] == y;
      assert q[p + 1] == y;
    }
  }

  lemma AscendingCons(x: nat, rest: seq<nat>, insts: seq<Inst>)
    requires x < |insts| && AllBelow(rest, |insts|) && Ascending(rest, insts)
    requires forall j :: 0 <= j < |rest| && insts[x].cpu == insts[rest[j]].cpu ==> insts[x].id < insts[rest[j]].id
    ensures Ascending([x] + rest, insts)
  {
  }
}
