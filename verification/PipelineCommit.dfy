// What one commit does as a whole: which instructions leave, and what is left
// in flight behind one that must flush its cpu.
module PipelineCommit {
  import opened Common
  import opened PipelineState
  import opened PipelineSteps
  import opened PipelineInvariant
  import opened PipelineSquash
  import opened PipelineFlush

  // Finished, and nothing behind it was fetched on a wrong path.
  predicate LeavesAlone(x: Inst) {
    x.status == Ready && !x.serial && x.foresight
  }

  function Leaving(q: seq<nat>, insts: seq<Inst>): (n: nat)
    requires AllBelow(q, |insts|)
    ensures n <= |q| && forall i :: 0 <= i < n ==> LeavesAlone(insts[q[i]])
    ensures n < |q| ==> !LeavesAlone(insts[q[n]])
  {
    if q == [] || !LeavesAlone(insts[q[0]]) then 0 else 1 + Leaving(q[1..], insts)
  }

  function Commits(q: seq<nat>, insts: seq<Inst>): (t: seq<Event>)
    requires AllBelow(q, |insts|)
    ensures |t| == |q| && forall i :: 0 <= i < |q| ==> t[i] == Committed(insts[q[i]].cpu, insts[q[i]].id)
  {
    seq(|q|, i requires 0 <= i < |q| => Committed(insts[q[i]].cpu, insts[q[i]].id))
  }

  // The first n entries of the reorder buffer have left, in order.
  ghost function Left(s: State, n: nat): (t: State)
    requires Wf(s) && n <= |s.rob|
    ensures Wf(t)
  {
    s.(rob := s.rob[n..], supplier := s.supplier + s.rob[..n], trace := s.trace + Commits(s.rob[..n], s.insts))
  }

  // The entries of other cpus, in order.
  function Others(q: seq<nat>, insts: seq<Inst>, c: nat): seq<nat>
    requires AllBelow(q, |insts|)
  {
    if q == [] then []
    else (if insts[q[0]].cpu != c then [q[0]] else []) + Others(q[1..], insts, c)
  }

  // Nothing of cpu c is left in flight; the other cpus are as they were.
  ghost predicate Emptied(s: State, t: State, c: nat)
    requires Wf(s) && Wf(t) && c < |s.decoder|
  {
    && t.insts == s.insts && t.nextId == s.nextId && t.response == s.response
    && t.rob == Others(s.rob, s.insts, c)
    && t.generic == Others(s.generic, s.insts, c) && t.ls == Others(s.ls, s.insts, c) && t.io == Others(s.io, s.insts, c)
    && t.decoder == s.decoder[c := []] && t.regs == s.regs[c := map[]]
    && t.writeReady == s.writeReady[c := false] && t.mustIssue == s.mustIssue[c := false]
    && |t.units| == |s.units|
    && (forall u :: 0 <= u < |s.units| ==>
          t.units[u] == if s.units[u].busy.Some? && s.insts[s.units[u].busy.value].cpu == c then s.units[u].(busy := None) else s.units[u])
    && s.supplier <= t.supplier
    && (forall h :: 0 <= h < |s.insts| && h !in s.supplier ==> (h in t.supplier <==> Live(s, h) && s.insts[h].cpu == c))
  }

  lemma {:induction false} KeepsOthers(q: seq<nat>, insts: seq<Inst>, c: nat)
    requires AllBelow(q, |insts|)
    ensures Keep(q, insts, c, 0) == Others(q, insts, c)
  {
    if q != [] {
      KeepsOthers(q[1..], insts, c);
    }
  }

  lemma FlushEmpties(s: State, c: nat)
    requires Wf(s) && PoolOk(s) && c < |s.decoder|
    ensures Emptied(s, Flush(s, c), c) && Flush(s, c).trace == s.trace
  {
    KeepsOthers(s.rob, s.insts, c);
    KeepsOthers(s.generic, s.insts, c);
    KeepsOthers(s.ls, s.insts, c);
    KeepsOthers(s.io, s.insts, c);
    FlushSupplier(s, c);
  }

  lemma FlushSupplier(s: State, c: nat)
    requires Wf(s) && PoolOk(s) && c < |s.decoder|
    ensures s.supplier <= Flush(s, c).supplier
    ensures forall h :: 0 <= h < |s.insts| && h !in s.supplier ==>
      (h in Flush(s, c).supplier <==> Live(s, h) && s.insts[h].cpu == c)
  {
    hide Keep;
    forall h | h in s.decoder[c] ensures h < |s.insts| && s.insts[h].cpu == c { DecoderMember(s, c, h); }
  }

  // A commit lets the finished instructions at the head leave, in order.  At
  // the first that cannot leave alone: if it is finished it is committed too
  // and its cpu is emptied; if it is a store or a port operation whose
  // operands are ready, it gets its permission; otherwise nothing more happens.
  ghost predicate CommitDone(s: State, t: State)
    requires Wf(s) && Wf(t)
  {
    var n := Leaving(s.rob, s.insts);
    var u := Left(s, n);
    if n == |s.rob| then t == u
    else
      var h := s.rob[n];
      var x := s.insts[h];
      if x.status == Ready then
        && Emptied(u.(trace := t.trace), t, x.cpu) && t.trace == u.trace + [Committed(x.cpu, x.id)]
      else if x.status == DepReady && x.kind == Store then t == u.(writeReady := u.writeReady[x.cpu := true])
      else if x.status == DepReady && x.kind in {IoIn, IoOut} then t == u.(mustIssue := u.mustIssue[x.cpu := true])
      else t == u
  }

  lemma {:induction false} CommitExactly(s: State)
    requires Wf(s) && PoolOk(s) && IdsOk(s)
    ensures CommitDone(s, Commit(s))
    decreases |s.rob|
  {
    hide CommitDone, IdsOk, Flush;
    if s.rob == [] || !LeavesAlone(s.insts[s.rob[0]]) {
      CommitStops(s);
    } else {
      RetirePool(s);
      assert Commit(s) == Commit(Retire(s));
      CommitExactly(Retire(s));
      DoneFromRetired(s, Commit(s));
    }
  }

  lemma CommitStops(s: State)
    requires Wf(s) && PoolOk(s) && (s.rob == [] || !LeavesAlone(s.insts[s.rob[0]]))
    ensures CommitDone(s, Commit(s))
  {
    hide Flush, Emptied, Left, PoolOk;
    LeftNothing(s);
    if s.rob != [] && s.insts[s.rob[0]].status == Ready {
      var x := s.insts[s.rob[0]];
      FlushEmptiesAfter(s, x.cpu, s.trace + [Committed(x.cpu, x.id)]);
    }
  }

  lemma FlushEmptiesAfter(s: State, c: nat, trace: seq<Event>)
    requires Wf(s) && PoolOk(s) && c < |s.decoder|
    ensures
      var t := s.(trace := trace);
      Wf(t) && Emptied(t, Flush(t, c), c) && Flush(t, c).trace == trace
  {
    hide Flush, Emptied;
    assert PoolOk(s.(trace := trace));
    FlushEmpties(s.(trace := trace), c);
  }

  lemma LeftNothing(s: State)
    requires Wf(s)
    ensures Left(s, 0) == s
  {
    assert s.supplier + [] == s.supplier && s.trace + [] == s.trace;
  }

  lemma CommitsCons(q: seq<nat>, insts: seq<Inst>, n: nat)
    requires AllBelow(q, |insts|) && n < |q|
    ensures Commits(q[..n + 1], insts) == [Committed(insts[q[0]].cpu, insts[q[0]].id)] + Commits(q[1..][..n], insts)
  {
  }

  lemma LeftOne(s: State)
    requires Wf(s) && s.rob != [] && LeavesAlone(s.insts[s.rob[0]])
    ensures
      var n := Leaving(s.rob[1..], s.insts);
      Leaving(s.rob, s.insts) == n + 1 && Left(s, n + 1) == Left(Retire(s), n)
  {
    hide Commits, InstsWf;
    var n := Leaving(s.rob[1..], s.insts);
    var q, h := s.rob[1..][..n], s.rob[0];
    CommitsCons(s.rob, s.insts, n);
    assert s.rob[..n + 1] == [h] + q && s.rob[n + 1..] == s.rob[1..][n..];
    Associative(s.supplier, h, q);
    Associative(s.trace, Committed(s.insts[h].cpu, s.insts[h].id), Commits(q, s.insts));
  }

  lemma Associative<T>(a: seq<T>, x: T, b: seq<T>)
    ensures a + ([x] + b) == (a + [x]) + b
  {
  }

  lemma DoneFromRetired(s: State, t: State)
    requires Wf(s) && Wf(t) && s.rob != [] && LeavesAlone(s.insts[s.rob[0]]) && CommitDone(Retire(s), t)
    ensures CommitDone(s, t)
  {
    hide Left, Wf, Emptied, Leaving;
    LeftOne(s);
  }
}
