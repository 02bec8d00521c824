// What both kinds of flush have in common: the pool bookkeeping and the queues
// after the instructions of one cpu from some id on were dropped.
module PipelineSquash {
  import opened Common
  import opened PipelineState
  import opened PipelineSteps
  import opened PipelineInvariant
  import opened PipelineFrame

  // ---- filtering ----

  lemma {:induction false} KeepConcat(p: seq<nat>, q: seq<nat>, insts: seq<Inst>, c: nat, from: nat)
    requires AllBelow(p, |insts|) && AllBelow(q, |insts|) && AllBelow(p + q, |insts|)
    ensures Keep(p + q, insts, c, from) == Keep(p, insts, c, from) + Keep(q, insts, c, from)
  {
    if p == [] {
      assert p + q == q;
    } else {
      var x, r, k := p[0], p[1..] + q, Keep(p[1..], insts, c, from) + Keep(q, insts, c, from);
      assert (p + q)[1..] == r && (p + q)[0] == x;
      assert Keep(r, insts, c, from) == k by { KeepConcat(p[1..], q, insts, c, from); }
      if Hit(insts[x], c, from) {
        assert Keep(p + q, insts, c, from) == k;
      } else {
        assert Keep(p + q, insts, c, from) == [x] + k;
      }
    }
  }

  lemma {:induction false} SquashedConcat(p: seq<nat>, q: seq<nat>, insts: seq<Inst>, c: nat, from: nat)
    requires AllBelow(p, |insts|) && AllBelow(q, |insts|) && AllBelow(p + q, |insts|)
    ensures Squashed(p + q, insts, c, from) == Squashed(p, insts, c, from) + Squashed(q, insts, c, from)
  {
    if p == [] {
      assert p + q == q;
    } else {
      assert (p + q)[1..] == p[1..] + q && (p + q)[0] == p[0];
      SquashedConcat(p[1..], q, insts, c, from);
    }
  }

  lemma KeepNone(q: seq<nat>, insts: seq<Inst>, c: nat, from: nat)
    requires AllBelow(q, |insts|) && forall i :: 0 <= i < |q| ==> !Hit(insts[q[i]], c, from)
    ensures Keep(q, insts, c, from) == q && Squashed(q, insts, c, from) == []
  {
    if q != [] {
      KeepNone(q[1..], insts, c, from);
    }
  }

  // Filtering looks at identities only, and only at which entries are hit.
  lemma KeepSame(q: seq<nat>, a: seq<Inst>, b: seq<Inst>, c: nat, from: nat, from': nat)
    requires AllBelow(q, |a|) && |a| == |b|
    requires forall i :: 0 <= i < |q| ==> (Hit(a[q[i]], c, from) <==> Hit(b[q[i]], c, from'))
    ensures Keep(q, a, c, from) == Keep(q, b, c, from') && Squashed(q, a, c, from) == Squashed(q, b, c, from')
  {
    if q != [] {
      KeepSame(q[1..], a, b, c, from, from');
    }
  }

  lemma {:induction false} KeepAscending(q: seq<nat>, insts: seq<Inst>, c: nat, from: nat)
    requires AllBelow(q, |insts|) && Ascending(q, insts)
    ensures Ascending(Keep(q, insts, c, from), insts)
  {
    if q != [] {
      KeepAscending(q[1..], insts, c, from);
      if !Hit(insts[q[0]], c, from) {
        var rest := Keep(q[1..], insts, c, from);
        assert forall j :: 0 <= j < |rest| && insts[q[0]].cpu == insts[rest[j]].cpu ==> insts[q[0]].id < insts[rest[j]].id by {
          HeadBelow(q, insts);
          assert forall j :: 0 <= j < |rest| ==> rest[j] in q[1..];
        }
        AscendingCons(q[0], rest, insts);
      }
    }
  }

  lemma KeepHead(q: seq<nat>, insts: seq<Inst>, c: nat, from: nat)
    requires AllBelow(q, |insts|) && q != [] && !Hit(insts[q[0]], c, from)
    ensures Keep(q, insts, c, from) != [] && Keep(q, insts, c, from)[0] == q[0]
  {
  }

  lemma AscendingDistinct(q: seq<nat>, insts: seq<Inst>)
    requires AllBelow(q, |insts|) && Ascending(q, insts)
    ensures NoDuplicates(q)
  {
  }

  lemma SquashedDistinct(q: seq<nat>, insts: seq<Inst>, c: nat, from: nat)
    requires AllBelow(q, |insts|) && NoDuplicates(q)
    ensures NoDuplicates(Squashed(q, insts, c, from))
  {
    if q != [] {
      SquashedDistinct(q[1..], insts, c, from);
      assert q[0] !in q[1..];
    }
  }

  lemma ReverseDistinct(q: seq<nat>)
    requires NoDuplicates(q)
    ensures NoDuplicates(Reverse(q))
  {
    if q != [] {
      ReverseDistinct(q[1..]);
      assert q[0] !in q[1..];
    }
  }

  lemma ConcatDistinct(p: seq<nat>, q: seq<nat>)
    requires NoDuplicates(p) && NoDuplicates(q) && forall i :: 0 <= i < |q| ==> q[i] !in p
    ensures NoDuplicates(p + q)
  {
    forall i, j | 0 <= i < j < |p + q|
      ensures (p + q)[i] != (p + q)[j]
    {
      if i < |p| <= j {
        assert q[j - |p|] !in p;
      }
    }
  }

  // ---- the common relation ----

  function Dropped(s: State, c: nat, drop: bool): (q: seq<nat>)
    requires c < |s.decoder|
  {
    if drop then Reverse(s.decoder[c]) else []
  }

  // t is s without the instructions of c from id `from` on, and without the
  // decoder entries of c when `drop` is set.
  ghost predicate Squashing(s: State, t: State, c: nat, from: nat, drop: bool)
    requires Wf(s) && Wf(t)
  {
    && c < |s.decoder| && SameIdentity(s.insts, t.insts)
    && (forall x :: 0 <= x < |s.insts| ==> s.insts[x].kind == t.insts[x].kind && s.insts[x].status == t.insts[x].status)
    && t.rob == Keep(s.rob, s.insts, c, from)
    && t.supplier == s.supplier + Dropped(s, c, drop) + Squashed(s.rob, s.insts, c, from)
    && t.decoder == (if drop then s.decoder[c := []] else s.decoder)
    && t.generic == Keep(s.generic, s.insts, c, from)
    && t.ls == Keep(s.ls, s.insts, c, from)
    && t.io == Keep(s.io, s.insts, c, from)
    && t.units == KeepUnits(s.units, s.insts, c, from)
    && t.nextId == s.nextId && t.trace == s.trace && t.response == s.response
  }

  ghost predicate Survives(s: State, x: nat, c: nat, from: nat, drop: bool)
    requires Wf(s) && x < |s.insts| && c < |s.decoder|
  {
    Live(s, x) && !(x in s.rob && Hit(s.insts[x], c, from)) && !(drop && x in s.decoder[c])
  }

  lemma SquashLive(s: State, t: State, c: nat, from: nat, drop: bool)
    requires Wf(s) && Wf(t) && PoolOk(s) && Squashing(s, t, c, from, drop)
    ensures LiveSet(t) <= LiveSet(s)
    ensures forall x :: 0 <= x < |s.insts| ==> (x in LiveSet(t) <==> Survives(s, x, c, from, drop))
  {
    forall x | 0 <= x < |s.insts|
      ensures Live(t, x) <==> Survives(s, x, c, from, drop)
    {
      assert t.insts[x].cpu == s.insts[x].cpu;
    }
  }

  lemma SquashSupplier(s: State, t: State, c: nat, from: nat, drop: bool)
    requires Wf(s) && Wf(t) && PoolOk(s) && IdsOk(s) && Squashing(s, t, c, from, drop)
    ensures NoDuplicates(t.supplier)
  {
    var d, q := Dropped(s, c, drop), Squashed(s.rob, s.insts, c, from);
    assert DecoderIdsOk(s, c);
    assert NoDuplicates(d) by {
      AscendingDistinct(s.decoder[c], s.insts);
      ReverseDistinct(s.decoder[c]);
    }
    assert NoDuplicates(q) by {
      AscendingDistinct(s.rob, s.insts);
      SquashedDistinct(s.rob, s.insts, c, from);
    }
    assert forall i :: 0 <= i < |d| ==> d[i] in s.decoder[c] && s.insts[d[i]].cpu == c && Live(s, d[i]);
    ConcatDistinct(s.supplier, d);
    forall i | 0 <= i < |q|
      ensures q[i] !in s.supplier + d
    {
      assert q[i] in q && q[i] in s.rob && Live(s, q[i]);
    }
    ConcatDistinct(s.supplier + d, q);
  }

  lemma SquashPool(s: State, t: State, c: nat, from: nat, drop: bool)
    requires Wf(s) && Wf(t) && PoolOk(s) && IdsOk(s) && Squashing(s, t, c, from, drop)
    ensures PoolOk(t)
  {
    SquashSupplier(s, t, c, from, drop);
    SquashLive(s, t, c, from, drop);
    forall x | 0 <= x < |t.insts|
      ensures x in t.supplier <==> !Live(t, x)
    {
      assert x in LiveSet(t) <==> Survives(s, x, c, from, drop);
      assert x in t.supplier <==> x in s.supplier || x in Dropped(s, c, drop) || x in Squashed(s.rob, s.insts, c, from);
      if x in s.decoder[c] { DecoderMember(s, c, x); }
    }
  }

  lemma DecoderMember(s: State, c: nat, x: nat)
    requires Wf(s) && PoolOk(s) && c < |s.decoder| && x in s.decoder[c]
    ensures x < |s.insts| && s.insts[x].cpu == c && Live(s, x) && x !in s.rob
  {
  }

  lemma SquashIds(s: State, t: State, c: nat, from: nat, drop: bool)
    requires Wf(s) && Wf(t) && IdsOk(s) && Squashing(s, t, c, from, drop)
    ensures IdsOk(t)
  {
    hide Keep, Squashed;
    KeepAscending(s.rob, s.insts, c, from);
    assert Ascending(t.rob, t.insts);
    KeptIndex(s.rob, s.insts, c, from);
    forall d | 0 <= d < |t.decoder|
      ensures DecoderIdsOk(t, d)
    {
      assert DecoderIdsOk(s, d);
    }
  }

  // Every kept entry stands somewhere in the original list.
  lemma KeptIndex(q: seq<nat>, insts: seq<Inst>, c: nat, from: nat)
    requires AllBelow(q, |insts|)
    ensures
      var k := Keep(q, insts, c, from);
      forall i :: 0 <= i < |k| ==> exists j :: 0 <= j < |q| && q[j] == k[i]
  {
    var k := Keep(q, insts, c, from);
    forall i | 0 <= i < |k|
      ensures exists j :: 0 <= j < |q| && q[j] == k[i]
    {
      assert k[i] in q;
    }
  }

  lemma SquashQueue(s: State, t: State, c: nat, from: nat, drop: bool, q: seq<nat>, kind: Queue)
    requires Wf(s) && Wf(t) && Squashing(s, t, c, from, drop)
    requires AllBelow(q, |s.insts|) && QueueOk(s, q, kind)
    ensures QueueOk(t, Keep(q, s.insts, c, from), kind)
  {
    KeepAscending(q, s.insts, c, from);
    var k := Keep(q, s.insts, c, from);
    assert Ascending(k, t.insts);
    forall i | 0 <= i < |k|
      ensures k[i] in t.rob
    {
      assert k[i] in k;
    }
  }

  lemma SquashUnits(s: State, t: State, c: nat, from: nat, drop: bool)
    requires Wf(s) && Wf(t) && Squashing(s, t, c, from, drop) && UnitsOk(s)
    requires forall i :: 0 <= i < |s.response| ==> s.insts[s.response[i]].cpu != c
    ensures UnitsOk(t)
  {
  }

  // A flag stays up only for an instruction that stays.
  ghost predicate FlagsKept(s: State, before: seq<bool>, after: seq<bool>, c: nat, from: nat)
    requires Wf(s)
  {
    && |after| == |before|
    && forall d :: 0 <= d < |after| && after[d] ==>
      before[d] && (s.rob != [] ==> !Hit(s.insts[s.rob[0]], c, from))
  }

  lemma SquashHeads(s: State, t: State, c: nat, from: nat, drop: bool)
    requires Wf(s) && Wf(t) && Squashing(s, t, c, from, drop) && HeadsOk(s)
    requires FlagsKept(s, s.writeReady, t.writeReady, c, from) && FlagsKept(s, s.mustIssue, t.mustIssue, c, from)
    ensures HeadsOk(t)
  {
    if s.rob != [] && !Hit(s.insts[s.rob[0]], c, from) {
      KeepHead(s.rob, s.insts, c, from);
    }
  }

  lemma SquashTrace(s: State, t: State, c: nat, from: nat, drop: bool)
    requires Wf(s) && Wf(t) && PoolOk(s) && Squashing(s, t, c, from, drop) && TraceOk(s)
    ensures TraceOk(t)
  {
    SquashLive(s, t, c, from, drop);
    forall e, x | e in t.trace && x in LiveSet(t)
      ensures EventBefore(e, t.insts[x])
    {
      assert EventBefore(e, s.insts[x]);
    }
  }

  lemma SquashIssue(s: State, t: State, c: nat, from: nat, drop: bool)
    requires Wf(s) && Wf(t) && PoolOk(s) && IssueOk(s) && Squashing(s, t, c, from, drop)
    requires forall i :: 0 <= i < |s.response| ==> s.insts[s.response[i]].cpu != c
    requires FlagsKept(s, s.writeReady, t.writeReady, c, from) && FlagsKept(s, s.mustIssue, t.mustIssue, c, from)
    ensures IssueOk(t)
  {
    assert QueuesOk(t) by {
      assert QueueOk(t, t.generic, GenericQueue) by { SquashQueue(s, t, c, from, drop, s.generic, GenericQueue); }
      assert QueueOk(t, t.ls, LoadStoreQueue) by { SquashQueue(s, t, c, from, drop, s.ls, LoadStoreQueue); }
      assert QueueOk(t, t.io, IoQueue) by { SquashQueue(s, t, c, from, drop, s.io, IoQueue); }
    }
    assert UnitsOk(t) by { SquashUnits(s, t, c, from, drop); }
    assert HeadsOk(t) by { SquashHeads(s, t, c, from, drop); }
    assert TraceOk(t) by { SquashTrace(s, t, c, from, drop); }
  }

  lemma SquashStatus(s: State, t: State, c: nat, from: nat, drop: bool)
    requires Wf(s) && Wf(t) && PoolOk(s) && StatusOk(s) && Squashing(s, t, c, from, drop)
    requires forall x :: x in LiveSet(t) ==>
      t.insts[x].resolved == s.insts[x].resolved && |t.insts[x].depIn| == |s.insts[x].depIn|
    requires forall x :: x in LiveSet(t) && AllNull(s.insts[x].depOut) ==> AllNull(t.insts[x].depOut)
    ensures StatusOk(t)
  {
    SquashLive(s, t, c, from, drop);
    forall x | x in t.rob
      ensures RobStatusOk(t.insts[x])
    {
      assert x in LiveSet(t) && x in s.rob && RobStatusOk(s.insts[x]);
    }
  }

  // Links never leave the survivors, so the graph may forget the rest.
  lemma EdgesRestrict(insts: seq<Inst>, live: set<nat>, rest: set<nat>)
    requires forall x :: x in live ==> x < |insts|
    requires rest <= live && Edges(insts, live) && CountsOk(insts, rest)
    requires forall x, i :: x in rest && 0 <= i < |insts[x].depIn| && insts[x].depIn[i].peer.Some? ==> insts[x].depIn[i].peer.value in rest
    requires forall x, k :: x in rest && 0 <= k < |insts[x].depOut| && insts[x].depOut[k].peer.Some? ==> insts[x].depOut[k].peer.value in rest
    ensures Edges(insts, rest)
  {
    forall x, i | x in rest && 0 <= i < |insts[x].depIn| && insts[x].depIn[i].peer.Some?
      ensures InLinkOk(insts, rest, x, i)
    {
      assert InLinkOk(insts, live, x, i);
    }
    forall x, k | x in rest && 0 <= k < |insts[x].depOut| && insts[x].depOut[k].peer.Some?
      ensures OutLinkOk(insts, rest, x, k)
    {
      assert OutLinkOk(insts, live, x, k);
    }
  }
}
