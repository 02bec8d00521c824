// Execution and write-back keep the invariant: every link out of the finished
// instruction is cut on both sides and counted exactly once.
module PipelineWriteBack {
  import opened Common
  import opened PipelineState
  import opened PipelineSteps
  import opened PipelineInvariant
  import opened PipelineFrame
  import opened PipelineDecode
  import opened PipelineDispatch

  lemma NullsOfClear(links: seq<Link>, pos: nat)
    requires pos < |links| && links[pos].peer.Some?
    ensures Nulls(ClearSlot(links, pos)) == Nulls(links) + 1
  {
    var cleared := ClearSlot(links, pos);
    if pos == 0 {
      assert cleared[1..] == links[1..];
    } else {
      assert cleared[1..] == ClearSlot(links[1..], pos - 1);
      NullsOfClear(links[1..], pos - 1);
    }
  }

  // Both ends of a link are cut: a keeps the rest of the graph, and r differs
  // from insts in the two slots only.
  ghost predicate Cut(insts: seq<Inst>, r: seq<Inst>, g: nat, k: nat, h: nat, pos: nat)
    requires g < |insts| && k < |insts[g].depOut| && h < |insts| && pos < |insts[h].depIn|
  {
    && SameShape(insts, r)
    && (forall x :: 0 <= x < |insts| && x != h ==> r[x].depIn == insts[x].depIn)
    && (forall x :: 0 <= x < |insts| && x != g ==> r[x].depOut == insts[x].depOut)
    && r[h].depIn == ClearSlot(insts[h].depIn, pos)
    && r[g].depOut == ClearSlot(insts[g].depOut, k)
  }

  lemma CutIn(insts: seq<Inst>, r: seq<Inst>, live: set<nat>, g: nat, k: nat, h: nat, pos: nat, x: nat, i: nat)
    requires g < |insts| && k < |insts[g].depOut| && h < |insts| && pos < |insts[h].depIn|
    requires Cut(insts, r, g, k, h, pos)
    requires insts[g].depOut[k] == Link(Some(h), pos) && insts[h].depIn[pos] == Link(Some(g), k)
    requires x < |insts| && i < |r[x].depIn| && r[x].depIn[i].peer.Some?
    requires insts[x].depIn[i].peer.Some? ==> InLinkOk(insts, live, x, i)
    ensures InLinkOk(r, live, x, i)
  {
    assert r[x].depIn[i] == insts[x].depIn[i];
  }

  lemma CutOut(insts: seq<Inst>, r: seq<Inst>, live: set<nat>, g: nat, k: nat, h: nat, pos: nat, x: nat, j: nat)
    requires g < |insts| && k < |insts[g].depOut| && h < |insts| && pos < |insts[h].depIn|
    requires Cut(insts, r, g, k, h, pos)
    requires insts[g].depOut[k] == Link(Some(h), pos) && insts[h].depIn[pos] == Link(Some(g), k)
    requires x < |insts| && j < |r[x].depOut| && r[x].depOut[j].peer.Some?
    requires insts[x].depOut[j].peer.Some? ==> OutLinkOk(insts, live, x, j)
    ensures OutLinkOk(r, live, x, j)
  {
    assert r[x].depOut[j] == insts[x].depOut[j];
  }

  lemma CutEdges(insts: seq<Inst>, r: seq<Inst>, live: set<nat>, g: nat, k: nat, h: nat, pos: nat)
    requires g < |insts| && k < |insts[g].depOut| && h < |insts| && pos < |insts[h].depIn|
    requires Cut(insts, r, g, k, h, pos)
    requires insts[g].depOut[k] == Link(Some(h), pos) && insts[h].depIn[pos] == Link(Some(g), k)
    requires forall x :: x in live ==> x < |insts|
    requires Edges(insts, live)
    ensures Edges(r, live)
  {
    forall x, i | x in live && 0 <= i < |r[x].depIn| && r[x].depIn[i].peer.Some?
      ensures InLinkOk(r, live, x, i)
    {
      CutIn(insts, r, live, g, k, h, pos, x, i);
    }
    forall x, j | x in live && 0 <= j < |r[x].depOut| && r[x].depOut[j].peer.Some?
      ensures OutLinkOk(r, live, x, j)
    {
      CutOut(insts, r, live, g, k, h, pos, x, j);
    }
  }

  // Cutting link k out of g on both sides leaves a consistent graph.
  lemma ResolveOutEdges(insts: seq<Inst>, live: set<nat>, g: nat, k: nat, cpus: nat)
    requires InstsWf(insts, cpus) && (forall h :: h in live ==> h < |insts|) && g in live
    requires Edges(insts, live) && CountsOk(insts, live)
    ensures Edges(ResolveOut(insts, g, k, cpus), live) && CountsOk(ResolveOut(insts, g, k, cpus), live)
  {
    var r := ResolveOut(insts, g, k, cpus);
    if k < |insts[g].depOut| && insts[g].depOut[k].peer.Some? {
      var h, pos := insts[g].depOut[k].peer.value, insts[g].depOut[k].back;
      assert OutLinkOk(insts, live, g, k);
      assert InLinkOk(insts, live, h, pos);
      NullsOfClear(insts[h].depIn, pos);
      CutEdges(insts, r, live, g, k, h, pos);
    }
  }

  // What one cut does to the instruction at its end.
  lemma ResolveOutStatus(insts: seq<Inst>, live: set<nat>, g: nat, k: nat, cpus: nat)
    requires InstsWf(insts, cpus) && (forall h :: h in live ==> h < |insts|) && g in live
    requires Edges(insts, live) && CountsOk(insts, live)
    ensures Resolving(insts, ResolveOut(insts, g, k, cpus), g)
    ensures k < |insts[g].depOut| ==> ResolveOut(insts, g, k, cpus)[g].depOut == ClearSlot(insts[g].depOut, k)
  {
    if k < |insts[g].depOut| && insts[g].depOut[k].peer.Some? {
      var h, pos := insts[g].depOut[k].peer.value, insts[g].depOut[k].back;
      assert OutLinkOk(insts, live, g, k);
      assert InLinkOk(insts, live, h, pos);
      NullsBound(insts[h].depIn);
      ResolvingAt(insts, g, k, cpus);
    }
  }

  lemma ResolvingAt(insts: seq<Inst>, g: nat, k: nat, cpus: nat)
    requires InstsWf(insts, cpus) && g < |insts| && k < |insts[g].depOut| && insts[g].depOut[k].peer.Some?
    requires
      var h := insts[g].depOut[k].peer.value;
      h < |insts| && h != g && insts[h].resolved < |insts[h].depIn|
    ensures Resolving(insts, ResolveOut(insts, g, k, cpus), g)
    ensures ResolveOut(insts, g, k, cpus)[g].depOut == ClearSlot(insts[g].depOut, k)
  {
  }

  // Instructions other than g may only move from waiting towards DepReady.
  ghost predicate Resolving(a: seq<Inst>, b: seq<Inst>, g: nat) {
    && SameShape(a, b) && g < |a|
    && b[g] == a[g].(depOut := b[g].depOut)
    && forall x :: 0 <= x < |a| && x != g ==>
      && b[x].depOut == a[x].depOut && b[x].kind == a[x].kind
      && (b[x].status != a[x].status ==> b[x].status == DepReady && a[x].resolved < |a[x].depIn|)
      && (a[x].resolved >= |a[x].depIn| ==> b[x].resolved == a[x].resolved)
      && (RobStatusOk(a[x]) ==> RobStatusOk(b[x]))
  }

  lemma {:induction false} ResolveFromKeeps(insts: seq<Inst>, live: set<nat>, g: nat, k: nat, cpus: nat)
    requires InstsWf(insts, cpus) && (forall h :: h in live ==> h < |insts|) && g in live
    requires Edges(insts, live) && CountsOk(insts, live)
    requires forall j :: 0 <= j < k && j < |insts[g].depOut| ==> insts[g].depOut[j].peer.None?
    ensures
      var r := ResolveFrom(insts, g, k, cpus);
      Edges(r, live) && CountsOk(r, live) && Resolving(insts, r, g) && AllNull(r[g].depOut)
    decreases |insts[g].depOut| - k
  {
    if k < |insts[g].depOut| {
      var m := ResolveOut(insts, g, k, cpus);
      ResolveOutEdges(insts, live, g, k, cpus);
      ResolveOutStatus(insts, live, g, k, cpus);
      ResolveFromKeeps(m, live, g, k + 1, cpus);
      ResolvingTransitive(insts, m, ResolveFrom(m, g, k + 1, cpus), g);
    }
  }

  lemma ResolvingTransitive(a: seq<Inst>, b: seq<Inst>, c: seq<Inst>, g: nat)
    requires Resolving(a, b, g) && Resolving(b, c, g)
    ensures Resolving(a, c, g)
  {
    forall x | 0 <= x < |a| && x != g
      ensures c[x].status != a[x].status ==> c[x].status == DepReady && a[x].resolved < |a[x].depIn|
    {
    }
  }

  // ---- the whole write-back ----

  lemma {:induction false} WithoutAscending(q: seq<nat>, h: nat, insts: seq<Inst>)
    requires AllBelow(q, |insts|) && Ascending(q, insts)
    ensures AllBelow(Without(q, h), |insts|) && Ascending(Without(q, h), insts)
  {
    if q != [] {
      WithoutAscending(q[1..], h, insts);
      if q[0] != h {
        var rest := Without(q[1..], h);
        assert forall j :: 0 <= j < |rest| && insts[q[0]].cpu == insts[rest[j]].cpu ==> insts[q[0]].id < insts[rest[j]].id by {
          HeadBelow(q, insts);
          assert forall j :: 0 <= j < |rest| ==> rest[j] in q[1..];
        }
        AscendingCons(q[0], rest, insts);
      }
    }
  }

  lemma WithoutNoDuplicates(q: seq<nat>, h: nat)
    requires NoDuplicates(q)
    ensures NoDuplicates(Without(q, h))
  {
    if q != [] {
      WithoutNoDuplicates(q[1..], h);
      assert q[0] !in q[1..];
    }
  }

  // What write-back does to the pool, with the graph facts it relies on.
  ghost predicate Finished(s: State, t: State, h: nat)
    requires Wf(s) && Wf(t)
  {
    && SamePlaces(s, t) && SameIdentity(s.insts, t.insts) && h in s.rob
    && Resolving(s.insts[h := s.insts[h].(status := Ready)], t.insts, h)
    && AllNull(t.insts[h].depOut)
    && t.insts[h].status == Ready && t.insts[h].kind == s.insts[h].kind
  }

  lemma WriteBackGraphLinks(s: State, h: nat)
    requires Wf(s) && PoolOk(s) && Edges(s.insts, LiveSet(s)) && CountsOk(s.insts, LiveSet(s))
    requires h in s.response && h in s.rob
    ensures LiveSet(WriteBack(s, h)) == LiveSet(s) && PoolOk(WriteBack(s, h))
    ensures Edges(WriteBack(s, h).insts, LiveSet(s)) && CountsOk(WriteBack(s, h).insts, LiveSet(s))
    ensures Finished(s, WriteBack(s, h), h)
  {
    hide Without, ForgetProducer;
    var t, a := WriteBack(s, h), s.insts[h := s.insts[h].(status := Ready)];
    assert h in LiveSet(s);
    EdgesFrame(s.insts, a, LiveSet(s));
    ResolveFromKeeps(a, LiveSet(s), h, 0, |s.decoder|);
    PoolFrame(s, t);
  }

  lemma FinishedStatus(s: State, t: State, h: nat)
    requires Wf(s) && Wf(t) && PoolOk(s) && StatusOk(s) && Finished(s, t, h) && s.insts[h].status == Executing
    ensures StatusOk(t)
  {
    PoolFrame(s, t);
    DecodersAvoidRob(s, h);
    forall x | x in t.rob
      ensures RobStatusOk(t.insts[x])
    {
      assert RobStatusOk(s.insts[x]);
    }
    forall x | x in LiveSet(t) && t.insts[x].status == Ready
      ensures AllNull(t.insts[x].depOut)
    {
      if x != h {
        assert s.insts[x].status == Ready && x in LiveSet(s);
      }
    }
  }

  lemma DecodersAvoidRob(s: State, h: nat)
    requires Wf(s) && PoolOk(s) && h in s.rob
    ensures forall c, i :: 0 <= c < |s.decoder| && 0 <= i < |s.decoder[c]| ==> s.decoder[c][i] != h
  {
  }

  lemma WriteBackRegs(s: State, h: nat)
    requires Wf(s) && PoolOk(s) && RegsOk(s) && h in s.response && Finished(s, WriteBack(s, h), h)
    ensures RegsOk(WriteBack(s, h))
  {
    var t := WriteBack(s, h);
    PoolFrame(s, t);
    forall c, r | 0 <= c < |t.regs| && r in t.regs[c]
      ensures Live(t, t.regs[c][r]) && t.regs[c][r] != h
    {
      assert r in s.regs[c] && t.regs[c][r] == s.regs[c][r];
      assert Live(s, s.regs[c][r]);
      assert s.regs[c][r] in LiveSet(t);
    }
  }

  lemma FinishedQueue(s: State, t: State, h: nat, q: seq<nat>, kind: Queue)
    requires Wf(s) && Wf(t) && StatusOk(s) && AllBelow(q, |s.insts|) && QueueOk(s, q, kind) && Finished(s, t, h)
    ensures AllBelow(Without(q, h), |s.insts|) && QueueOk(t, Without(q, h), kind)
  {
    var p := Without(q, h);
    WithoutAscending(q, h, s.insts);
    forall i, j | 0 <= i < j < |p| && t.insts[p[i]].cpu == t.insts[p[j]].cpu
      ensures t.insts[p[i]].id < t.insts[p[j]].id
    {
      assert Ascending(p, s.insts);
    }
    forall x | x in t.rob
      ensures x in p <==> QueueOf(t.insts[x].kind) == kind && t.insts[x].status != Ready
    {
      assert RobStatusOk(s.insts[x]);
    }
  }

  lemma WriteBackQueues(s: State, h: nat)
    requires Wf(s) && StatusOk(s) && QueuesOk(s) && h in s.response && Finished(s, WriteBack(s, h), h)
    ensures QueuesOk(WriteBack(s, h))
  {
    var t := WriteBack(s, h);
    assert QueueOk(t, t.generic, GenericQueue) by { FinishedQueue(s, t, h, s.generic, GenericQueue); }
    assert QueueOk(t, t.ls, LoadStoreQueue) by { FinishedQueue(s, t, h, s.ls, LoadStoreQueue); }
    assert QueueOk(t, t.io, IoQueue) by { FinishedQueue(s, t, h, s.io, IoQueue); }
  }

  lemma WriteBackUnits(s: State, h: nat)
    requires Wf(s) && UnitsOk(s) && StatusOk(s) && h in s.response && Finished(s, WriteBack(s, h), h)
    ensures UnitsOk(WriteBack(s, h))
  {
    WithoutNoDuplicates(s.response, h);
  }

  lemma WriteBackHeads(s: State, h: nat)
    requires Wf(s) && StatusOk(s) && HeadsOk(s) && h in s.response && Finished(s, WriteBack(s, h), h)
    requires s.insts[h].status == Executing
    ensures HeadsOk(WriteBack(s, h))
  {
    var t := WriteBack(s, h);
    assert RobStatusOk(s.insts[s.rob[0]]) by { assert s.rob[0] in s.rob; }
    forall x | x in t.rob && Ordered(t.insts[x].kind) && t.insts[x].status in {Executing, Ready}
      ensures x == t.rob[0]
    {
      assert x in s.rob && s.insts[x].status in {Executing, Ready};
    }
  }

  lemma WriteBackTrace(s: State, h: nat)
    requires Wf(s) && PoolOk(s) && StatusOk(s) && TraceOk(s) && h in s.response && Finished(s, WriteBack(s, h), h)
    requires s.insts[h].status == Executing
    ensures TraceOk(WriteBack(s, h))
  {
    var t := WriteBack(s, h);
    PoolFrame(s, t);
    forall x | x in LiveSet(s) && s.insts[x].status in {Executing, Ready}
      ensures t.insts[x].status in {Executing, Ready}
    {
      if x in s.rob {
        assert RobStatusOk(s.insts[x]);
      }
    }
    TraceFrame(s, t);
  }

  lemma WriteBackKeepsInv(s: State, h: nat)
    requires Inv(s) && h in s.response
    ensures Inv(WriteBack(s, h)) && WriteBack(s, h).rob == s.rob
  {
    assert h in s.rob && s.insts[h].status == Executing;
    WriteBackGraphLinks(s, h);
    assert GraphOk(WriteBack(s, h)) by {
      IdsFrame(s, WriteBack(s, h));
      FinishedStatus(s, WriteBack(s, h), h);
      WriteBackRegs(s, h);
    }
    assert IssueOk(WriteBack(s, h)) by {
      WriteBackQueues(s, h);
      WriteBackUnits(s, h);
      WriteBackHeads(s, h);
      WriteBackTrace(s, h);
    }
  }

  // ---- execution ----

  // Only the units and the response differ.
  lemma UnitsChangeGraph(s: State, t: State)
    requires Wf(s) && GraphOk(s) && t == s.(units := t.units, response := t.response) && Wf(t)
    ensures GraphOk(t)
  {
    PoolFrame(s, t);
    GraphFrame(s, t);
  }

  lemma UnitsChange(s: State, t: State)
    requires Inv(s) && t == s.(units := t.units, response := t.response)
    requires Wf(t) && UnitsOk(t)
    ensures Inv(t)
  {
    UnitsChangeGraph(s, t);
    PoolFrame(s, t);
    assert IssueOk(t) by {
      assert QueuesOk(t);
      assert HeadsOk(t);
      assert TraceOk(t) by { TraceFrame(s, t); }
    }
  }

  lemma UnitFinishes(s: State, u: nat, n: nat)
    requires Wf(s) && UnitsOk(s) && u < |s.units| && s.units[u].busy.Some?
    ensures
      var t := s.(units := s.units[u := s.units[u].(busy := None, cycles := n)],
                  response := s.response + [s.units[u].busy.value]);
      Wf(t) && UnitsOk(t)
    ensures
      var t := s.(units := s.units[u := s.units[u].(cycles := n)]);
      Wf(t) && UnitsOk(t)
  {
  }

  // One iteration of the loop over the units.
  ghost function ExecUnit(s: State, u: nat): (t: State)
    requires Wf(s) && u < |s.units| && s.units[u].busy.Some?
  {
    var h, n := s.units[u].busy.value, s.units[u].cycles;
    if n >= s.insts[h].latency
    then s.(units := s.units[u := s.units[u].(busy := None, cycles := n + 1)], response := s.response + [h])
    else s.(units := s.units[u := s.units[u].(cycles := n + 1)])
  }

  lemma ExecUnitKeepsInv(s: State, u: nat)
    requires Inv(s) && u < |s.units| && s.units[u].busy.Some?
    ensures Inv(ExecUnit(s, u))
  {
    hide GraphOk, QueuesOk, HeadsOk, TraceOk;
    UnitFinishes(s, u, s.units[u].cycles + 1);
    UnitsChange(s, ExecUnit(s, u));
  }

  lemma {:induction false} ExecKeepsInv(s: State, u: nat)
    requires Inv(s) && u <= |s.units|
    ensures Inv(Exec(s, u)) && Exec(s, u).rob == s.rob && Exec(s, u).insts == s.insts
    decreases |s.units| - u
  {
    hide GraphOk, IssueOk;
    if u < |s.units| {
      if s.units[u].busy.None? {
        ExecKeepsInv(s, u + 1);
      } else {
        ExecUnitKeepsInv(s, u);
        ExecKeepsInv(ExecUnit(s, u), u + 1);
      }
    }
  }
}
