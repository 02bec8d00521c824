// What the three reservation queues hand to the units, entry by entry, and how
// many entries they can hold.
module PipelineSupply {
  import opened Common
  import opened PipelineState
  import opened PipelineSteps
  import opened PipelineInvariant
  import opened PipelineSquash
  import opened PipelineFlush
  import opened PipelineRuns
  import opened PipelineUnits
  import opened PipelineProducers

  // The unit chosen is the first that is idle and executes the kind.
  lemma {:induction false} FirstFree(units: seq<Unit>, k: Kind)
    ensures FreeUnit(units, k).Some? ==>
      forall u :: 0 <= u < FreeUnit(units, k).value && k in units[u].kinds ==> units[u].busy.Some?
    decreases |units|
  {
    if units != [] {
      FirstFree(units[1..], k);
      assert forall u :: 0 < u < |units| ==> units[u] == units[1..][u - 1];
    }
  }

  // ---- queue order ----

  // Entry k went to a unit that was idle and executes its kind.
  ghost predicate Sent(s: State, t: State, h: nat)
    requires h < |s.insts|
  {
    && |t.insts| == |s.insts| && |t.units| == |s.units|
    && t.insts[h] == s.insts[h].(status := Executing)
    && exists u :: 0 <= u < |s.units| && s.units[u].busy.None? && s.insts[h].kind in s.units[u].kinds
                   && t.units[u] == s.units[u].(busy := Some(h), cycles := 0)
  }

  // Every unit for it was busy, or was taken by an entry before it.
  ghost predicate Refused(s: State, t: State, q: seq<nat>, i: nat, k: nat)
    requires k < |q| && q[k] < |s.insts|
  {
    && |t.insts| == |s.insts| && |t.units| == |s.units| && t.insts[q[k]] == s.insts[q[k]]
    && forall u :: 0 <= u < |s.units| && s.insts[q[k]].kind in s.units[u].kinds ==>
      s.units[u].busy.Some? || exists m :: i <= m < k && t.units[u].busy == Some(q[m])
  }

  ghost predicate Served(s: State, t: State, q: seq<nat>, i: nat, k: nat)
    requires k < |q| && q[k] < |s.insts|
  {
    if s.insts[q[k]].status == DepReady then Sent(s, t, q[k]) || Refused(s, t, q, i, k)
    else |t.insts| == |s.insts| && t.insts[q[k]] == s.insts[q[k]]
  }

  // An entry served after entry i was sent was served after it all the same.
  lemma ServedLater(s: State, m: State, t: State, q: seq<nat>, i: nat, u: nat, k: nat)
    requires Wf(s) && i < k < |q| && AllBelow(q, |s.insts|) && u < |s.units| && s.units[u].busy.None? && q[k] != q[i]
    requires m == Start(s, q[i], u) && SuppliesOnly(m, t) && Served(m, t, q, i + 1, k)
    ensures Served(s, t, q, i, k)
  {
  }

  lemma SentNow(s: State, m: State, t: State, h: nat, u: nat)
    requires Wf(s) && h < |s.insts| && u < |s.units| && s.units[u].busy.None? && s.insts[h].kind in s.units[u].kinds
    requires m == Start(s, h, u).(writeReady := m.writeReady, mustIssue := m.mustIssue) && SuppliesOnly(m, t)
    requires t.insts[h] == m.insts[h]
    ensures Sent(s, t, h)
  {
  }

  // An entry that is passed over leaves all units to those after it.
  lemma ServedWider(s: State, t: State, q: seq<nat>, i: nat, k: nat)
    requires i < k < |q| && q[k] < |s.insts| && Served(s, t, q, i + 1, k)
    ensures Served(s, t, q, i, k)
  {
  }

  lemma NotAgain(q: seq<nat>, i: nat)
    requires NoDuplicates(q) && i < |q|
    ensures q[i] !in q[i + 1..] && q[i..] == [q[i]] + q[i + 1..]
    ensures forall k :: i < k < |q| ==> q[k] in q[i + 1..] && q[k] != q[i]
  {
    forall k | i < k < |q| ensures q[k] in q[i + 1..] { assert q[i + 1..][k - i - 1] == q[k]; }
  }

  // The other entries of the queue are as they were.
  ghost predicate OthersStay(s: State, t: State, rest: seq<nat>) {
    |t.insts| == |s.insts| && forall h :: 0 <= h < |s.insts| && h !in rest ==> t.insts[h] == s.insts[h]
  }

  lemma OthersStayOn(s: State, m: State, t: State, q: seq<nat>, i: nat)
    requires i < |q| && OthersStay(s, m, [q[i]]) && OthersStay(m, t, q[i + 1..])
    ensures OthersStay(s, t, q[i..])
  {
    assert q[i..] == [q[i]] + q[i + 1..];
  }

  lemma PassingChangesNothing(s: State, h: nat)
    ensures OthersStay(s, s, [h])
  {
  }

  lemma StartChangesOne(s: State, h: nat, u: nat, m: State)
    requires Wf(s) && h < |s.insts| && u < |s.units|
    requires m == Start(s, h, u).(writeReady := m.writeReady, mustIssue := m.mustIssue)
    ensures OthersStay(s, m, [h])
  {
    assert h in [h];
  }

  lemma {:induction false} GenericServes(s: State, i: nat)
    requires Wf(s) && NoDuplicates(s.generic) && i <= |s.generic|
    ensures OthersStay(s, SupplyGeneric(s, i), s.generic[i..])
    ensures forall k :: i <= k < |s.generic| ==> Served(s, SupplyGeneric(s, i), s.generic, i, k)
    decreases |s.generic| - i
  {
    hide SuppliesOnly, Served, NoDuplicates, OthersStay;
    NothingMoves(s, s.generic[i..]);
    if i < |s.generic| {
      NotAgain(s.generic, i);
      var h := s.generic[i];
      var u := FreeUnit(s.units, s.insts[h].kind);
      if s.insts[h].status == DepReady && u.Some? {
        GenericSends(s, i, u.value);
      } else {
        GenericServes(s, i + 1);
        SupplyGenericOnly(s, i + 1);
        PassingChangesNothing(s, h);
        OthersStayOn(s, s, SupplyGeneric(s, i + 1), s.generic, i);
        StaysAfter(s, SupplyGeneric(s, i + 1), s.generic[i + 1..], h);
        PassedOver(s, SupplyGeneric(s, i + 1), s.generic, i);
        forall k | i < k < |s.generic| ensures Served(s, SupplyGeneric(s, i), s.generic, i, k) {
          ServedWider(s, SupplyGeneric(s, i), s.generic, i, k);
        }
      }
    }
  }

  lemma GenericSends(s: State, i: nat, u: nat)
    requires Wf(s) && NoDuplicates(s.generic) && i < |s.generic| && u < |s.units| && s.units[u].busy.None?
    requires s.insts[s.generic[i]].status == DepReady && FreeUnit(s.units, s.insts[s.generic[i]].kind) == Some(u)
    ensures OthersStay(s, SupplyGeneric(s, i), s.generic[i..])
    ensures forall k :: i <= k < |s.generic| ==> Served(s, SupplyGeneric(s, i), s.generic, i, k)
    decreases |s.generic| - i, 0
  {
    hide SuppliesOnly, Served, NoDuplicates, OthersStay;
    NotAgain(s.generic, i);
    var h := s.generic[i];
    var m := Start(s, h, u);
    var t := SupplyGeneric(m, i + 1);
    GenericServes(m, i + 1);
    SupplyGenericOnly(m, i + 1);
    StartChangesOne(s, h, u, m);
    OthersStayOn(s, m, t, s.generic, i);
    StaysAfter(m, t, s.generic[i + 1..], h);
    SentServed(s, m, t, s.generic, i, u);
    forall k | i < k < |s.generic| ensures Served(s, t, s.generic, i, k) {
      ServedLater(s, m, t, s.generic, i, u, k);
    }
  }

  lemma SentServed(s: State, m: State, t: State, q: seq<nat>, i: nat, u: nat)
    requires Wf(s) && i < |q| && q[i] < |s.insts| && s.insts[q[i]].status == DepReady
    requires u < |s.units| && s.units[u].busy.None? && s.insts[q[i]].kind in s.units[u].kinds
    requires m == Start(s, q[i], u) && SuppliesOnly(m, t) && t.insts[q[i]] == m.insts[q[i]]
    ensures Served(s, t, q, i, i)
  {
    SentNow(s, m, t, q[i], u);
  }

  // Entry i is not ready, or has no unit.
  lemma PassedOver(s: State, t: State, q: seq<nat>, i: nat)
    requires Wf(s) && i < |q| && q[i] < |s.insts| && SuppliesOnly(s, t)
    requires s.insts[q[i]].status != DepReady || FreeUnit(s.units, s.insts[q[i]].kind).None?
    requires t.insts[q[i]] == s.insts[q[i]]
    ensures Served(s, t, q, i, i)
  {
  }

  // Every ready entry of the generic queue goes, in queue order, to an idle
  // unit of its kind; it stays only if each of them is busy or was taken by an
  // entry before it.  The others stay as they are.
  lemma GenericQueueServes(s: State)
    requires Inv(s)
    ensures
      var t := SupplyGeneric(s, 0);
      && SuppliesOnly(s, t) && OthersStay(s, t, s.generic)
      && forall k :: 0 <= k < |s.generic| ==> Served(s, t, s.generic, 0, k)
  {
    hide Served, SuppliesOnly, GraphOk;
    assert NoDuplicates(s.generic) by {
      assert QueueOk(s, s.generic, GenericQueue);
      AscendingDistinct(s.generic, s.insts);
    }
    assert s.generic[0..] == s.generic;
    GenericServes(s, 0);
    SupplyGenericOnly(s, 0);
  }

  // ---- the load/store queue ----

  // Whatever is sent takes the permission of its cpu with it, loads too.
  ghost predicate TakesPermission(s: State, q: seq<nat>, m: nat, c: nat)
    requires m < |q| && q[m] < |s.insts|
  {
    s.insts[q[m]].cpu == c && s.insts[q[m]].status == DepReady
  }

  // Entry k may go: it is ready, and a store has its cpu's permission.
  ghost predicate MayGo(s: State, q: seq<nat>, i: nat, k: nat)
    requires Wf(s) && AllBelow(q, |s.insts|) && k < |q|
  {
    var x := s.insts[q[k]];
    && x.status == DepReady
    && (x.kind == Store ==> s.writeReady[x.cpu] && forall m :: i <= m < k ==> !TakesPermission(s, q, m, x.cpu))
  }

  // The walk from entry i sends what may go and passes over what may not, up
  // to entry p: that one may go but has no unit, and nothing behind it goes.
  ghost predicate WalkedTo(s: State, t: State, q: seq<nat>, i: nat, p: nat)
    requires Wf(s) && AllBelow(q, |s.insts|)
  {
    && i <= p <= |q| && |t.insts| == |s.insts| && |t.units| == |s.units|
    && (forall k :: i <= k < p ==> if MayGo(s, q, i, k) then Sent(s, t, q[k]) else t.insts[q[k]] == s.insts[q[k]])
    && (forall k :: p <= k < |q| ==> t.insts[q[k]] == s.insts[q[k]])
    && (p < |q| ==> MayGo(s, q, i, p))
    && (p < |q| ==> forall u :: 0 <= u < |s.units| && s.insts[q[p]].kind in s.units[u].kinds ==> t.units[u].busy.Some?)
  }

  lemma {:induction false} LsWalks(s: State, i: nat) returns (p: nat)
    requires Wf(s) && NoDuplicates(s.ls) && i <= |s.ls|
    ensures OthersStay(s, SupplyLs(s, i), s.ls[i..])
    ensures WalkedTo(s, SupplyLs(s, i), s.ls, i, p)
    decreases |s.ls| - i
  {
    hide SuppliesOnly, NoDuplicates, WalkedTo, OthersStay;
    if i == |s.ls| {
      p := i;
      WalkEnds(s, i);
      NothingMoves(s, s.ls[i..]);
    } else {
      NotAgain(s.ls, i);
      var h := s.ls[i];
      var x := s.insts[h];
      var u := FreeUnit(s.units, x.kind);
      if (x.kind == Store && !s.writeReady[x.cpu]) || x.status != DepReady {
        p := LsWalks(s, i + 1);
        PassingChangesNothing(s, h);
        OthersStayOn(s, s, SupplyLs(s, i + 1), s.ls, i);
        WalkPasses(s, SupplyLs(s, i + 1), s.ls, i, p);
      } else if u.Some? {
        p := LsSends(s, i, u.value);
      } else {
        p := i;
        WalkEnds(s, i);
        NothingMoves(s, s.ls[i..]);
      }
    }
  }

  lemma LsSends(s: State, i: nat, u: nat) returns (p: nat)
    requires Wf(s) && NoDuplicates(s.ls) && i < |s.ls| && u < |s.units| && s.units[u].busy.None?
    requires FreeUnit(s.units, s.insts[s.ls[i]].kind) == Some(u) && MayGo(s, s.ls, i, i)
    ensures OthersStay(s, SupplyLs(s, i), s.ls[i..])
    ensures WalkedTo(s, SupplyLs(s, i), s.ls, i, p)
    decreases |s.ls| - i, 0
  {
    hide SuppliesOnly, NoDuplicates, WalkedTo, OthersStay;
    NotAgain(s.ls, i);
    var h := s.ls[i];
    var m := Start(s, h, u).(writeReady := s.writeReady[s.insts[h].cpu := false]);
    var t := SupplyLs(m, i + 1);
    p := LsWalks(m, i + 1);
    SupplyLsOnly(m, i + 1);
    StartChangesOne(s, h, u, m);
    OthersStayOn(s, m, t, s.ls, i);
    StaysAfter(m, t, s.ls[i + 1..], h);
    WalkSends(s, m, t, s.ls, i, u, p);
  }

  lemma NothingMoves(s: State, rest: seq<nat>)
    ensures OthersStay(s, s, rest)
  {
  }

  lemma StaysAfter(m: State, t: State, rest: seq<nat>, h: nat)
    requires OthersStay(m, t, rest) && h < |m.insts| && h !in rest
    ensures h < |t.insts| && t.insts[h] == m.insts[h]
  {
  }

  lemma WalkEnds(s: State, i: nat)
    requires Wf(s) && i <= |s.ls|
    requires i < |s.ls| ==> MayGo(s, s.ls, i, i) && FreeUnit(s.units, s.insts[s.ls[i]].kind).None?
    ensures WalkedTo(s, s, s.ls, i, i)
  {
  }

  lemma WalkPasses(s: State, t: State, q: seq<nat>, i: nat, p: nat)
    requires Wf(s) && i < |q| && AllBelow(q, |s.insts|) && !MayGo(s, q, i, i)
    requires WalkedTo(s, t, q, i + 1, p) && OthersStay(s, t, q[i + 1..]) && q[i] !in q[i + 1..]
    ensures WalkedTo(s, t, q, i, p)
  {
    forall k | i < k < |q|
      ensures MayGo(s, q, i, k) <==> MayGo(s, q, i + 1, k)
    {
    }
  }

  lemma WalkSends(s: State, m: State, t: State, q: seq<nat>, i: nat, u: nat, p: nat)
    requires Wf(s) && Wf(m) && i < |q| && AllBelow(q, |s.insts|) && MayGo(s, q, i, i)
    requires forall k :: i < k < |q| ==> q[k] != q[i]
    requires u < |s.units| && s.units[u].busy.None? && s.insts[q[i]].kind in s.units[u].kinds
    requires m == Start(s, q[i], u).(writeReady := s.writeReady[s.insts[q[i]].cpu := false])
    requires SuppliesOnly(m, t) && t.insts[q[i]] == m.insts[q[i]] && WalkedTo(m, t, q, i + 1, p)
    ensures WalkedTo(s, t, q, i, p)
  {
    hide Wf, InstsWf, SuppliesOnly, Sent;
    SentNow(s, m, t, q[i], u);
    forall k | i < k < |q|
      ensures MayGo(s, q, i, k) <==> MayGo(m, q, i + 1, k)
    {
      WalkGoesOn(s, m, q, i, u, k);
    }
    forall k | i < k < |q| && Sent(m, t, q[k])
      ensures Sent(s, t, q[k])
    {
      SentLater(s, m, t, q, i, u, k);
    }
  }

  lemma WalkGoesOn(s: State, m: State, q: seq<nat>, i: nat, u: nat, k: nat)
    requires Wf(s) && Wf(m) && i < k < |q| && AllBelow(q, |s.insts|) && MayGo(s, q, i, i) && u < |s.units|
    requires forall k :: i < k < |q| ==> q[k] != q[i]
    requires m == Start(s, q[i], u).(writeReady := s.writeReady[s.insts[q[i]].cpu := false])
    ensures MayGo(s, q, i, k) <==> MayGo(m, q, i + 1, k)
  {
    assert TakesPermission(s, q, i, s.insts[q[i]].cpu);
    assert forall n, c: nat :: i < n < |q| ==> TakesPermission(m, q, n, c) == TakesPermission(s, q, n, c);
  }

  lemma SentLater(s: State, m: State, t: State, q: seq<nat>, i: nat, u: nat, k: nat)
    requires Wf(s) && i < k < |q| && AllBelow(q, |s.insts|) && u < |s.units| && s.units[u].busy.None? && q[k] != q[i]
    requires m == Start(s, q[i], u).(writeReady := m.writeReady) && SuppliesOnly(m, t) && Sent(m, t, q[k])
    ensures Sent(s, t, q[k])
  {
  }

  // The load/store queue passes over stores without permission, sends what may
  // go in queue order, and ends at the first entry for which there is no unit.
  lemma LsQueueWalks(s: State)
    requires Inv(s)
    ensures SuppliesOnly(s, SupplyLs(s, 0)) && OthersStay(s, SupplyLs(s, 0), s.ls)
    ensures exists p :: WalkedTo(s, SupplyLs(s, 0), s.ls, 0, p)
  {
    hide WalkedTo, SuppliesOnly, GraphOk;
    assert NoDuplicates(s.ls) by {
      assert QueueOk(s, s.ls, LoadStoreQueue);
      AscendingDistinct(s.ls, s.insts);
    }
    assert s.ls[0..] == s.ls;
    var p := LsWalks(s, 0);
    SupplyLsOnly(s, 0);
  }

  // ---- the port queue ----

  // At most entry p goes, the first one whose cpu must issue.
  ghost predicate OnePort(s: State, t: State, q: seq<nat>, i: nat, p: nat)
    requires Wf(s) && AllBelow(q, |s.insts|)
  {
    && i <= p <= |q| && (forall k :: i <= k < p ==> !s.mustIssue[s.insts[q[k]].cpu])
    && (p == |q| ==> t == s)
    && (p < |q| ==>
          && s.mustIssue[s.insts[q[p]].cpu]
          && if forall u :: 0 <= u < |s.units| && s.insts[q[p]].kind in s.units[u].kinds ==> s.units[u].busy.Some? then t == s
             else Sent(s, t, q[p]) && OthersStay(s, t, [q[p]]) && t.mustIssue == s.mustIssue[s.insts[q[p]].cpu := false])
  }

  lemma {:induction false} IoWalks(s: State, i: nat) returns (p: nat)
    requires Wf(s) && i <= |s.io|
    ensures OnePort(s, SupplyIo(s, i), s.io, i, p)
    decreases |s.io| - i
  {
    p := i;
    if i < |s.io| {
      var h := s.io[i];
      var u := FreeUnit(s.units, s.insts[h].kind);
      if !s.mustIssue[s.insts[h].cpu] {
        p := IoWalks(s, i + 1);
      } else if u.Some? {
        var t := Start(s, h, u.value).(mustIssue := s.mustIssue[s.insts[h].cpu := false]);
        SuppliesNothing(t);
        SentNow(s, t, t, h, u.value);
      }
    }
  }

  // The port queue sends at most one entry, the first whose cpu must issue.
  lemma PortQueueWalks(s: State)
    requires Wf(s)
    ensures SuppliesOnly(s, SupplyIo(s, 0)) && exists p :: OnePort(s, SupplyIo(s, 0), s.io, 0, p)
  {
    hide OnePort, SuppliesOnly;
    var p := IoWalks(s, 0);
    SupplyIoOnly(s, 0);
  }

  // ---- dispatch ----

  ghost predicate WithinCaps(s: State) {
    |s.generic| <= s.genericCap && |s.ls| <= s.lsCap && |s.io| <= s.ioCap
  }

  // Dispatch is refused exactly when the queue of the micro-op is at its limit;
  // one without unit needs no queue.
  lemma RefusedExactly(s: State, c: nat)
    requires Wf(s) && c < |s.decoder| && s.decoder[c] != [] && WithinCaps(s)
    ensures
      var k := s.insts[s.decoder[c][0]].kind;
      Dispatch(s, c) == s <==>
        if k == NoUnit then false
        else if k in {Load, Store} then |s.ls| == s.lsCap
        else if k in {IoIn, IoOut} then |s.io| == s.ioCap
        else |s.generic| == s.genericCap
  {
    var t := Dispatch(s, c);
    assert t != s ==> |t.rob| == |s.rob| + 1;
  }

  // No queue grows but at dispatch.
  ghost predicate NotLonger(s: State, t: State) {
    && |t.generic| <= |s.generic| && |t.ls| <= |s.ls| && |t.io| <= |s.io|
    && t.genericCap == s.genericCap && t.lsCap == s.lsCap && t.ioCap == s.ioCap
  }

  lemma {:induction false} KeepNotLonger(q: seq<nat>, insts: seq<Inst>, c: nat, from: nat)
    requires AllBelow(q, |insts|)
    ensures |Keep(q, insts, c, from)| <= |q|
  {
    if q != [] { KeepNotLonger(q[1..], insts, c, from); }
  }

  lemma {:induction false} WithoutNotLonger(q: seq<nat>, h: nat)
    ensures |Without(q, h)| <= |q|
  {
    if q != [] { WithoutNotLonger(q[1..], h); }
  }

  lemma SquashNotLonger(s: State, c: nat, from: nat)
    requires Wf(s)
    ensures NotLonger(s, SquashQueues(s, c, from))
  {
    KeepNotLonger(s.generic, s.insts, c, from);
    KeepNotLonger(s.ls, s.insts, c, from);
    KeepNotLonger(s.io, s.insts, c, from);
  }

  lemma FlushNotLonger(s: State, c: nat)
    requires Wf(s) && c < |s.decoder|
    ensures NotLonger(s, Flush(s, c))
  {
    hide SquashQueues;
    SquashNotLonger(s, c, 0);
  }

  lemma PartialNotLonger(s: State, h: nat)
    requires Wf(s) && h < |s.insts|
    ensures NotLonger(s, PartialFlush(s, h))
  {
    hide SquashQueues, SquashBehind;
    SquashNotLonger(s, s.insts[h].cpu, s.insts[h].id + 1);
  }

  lemma {:induction false} CommitNotLonger(s: State)
    requires Wf(s)
    ensures NotLonger(s, Commit(s))
    decreases |s.rob|
  {
    hide Flush;
    if s.rob != [] {
      var x := s.insts[s.rob[0]];
      if x.status == Ready {
        if FlushesAtCommit(x) {
          FlushNotLonger(s.(trace := s.trace + [Committed(x.cpu, x.id)]), x.cpu);
        } else {
          CommitNotLonger(Retire(s));
        }
      }
    }
  }

  lemma WriteBackNotLonger(s: State, h: nat)
    requires Wf(s) && h in s.response
    ensures NotLonger(s, WriteBack(s, h))
  {
    hide ResolveFrom, Without;
    WithoutNotLonger(s.generic, h);
    WithoutNotLonger(s.ls, h);
    WithoutNotLonger(s.io, h);
  }

  lemma StepWithinCaps(s: State, step: Step)
    requires Enabled(s, step) && WithinCaps(s)
    ensures WithinCaps(Next(s, step))
  {
    hide Exec, SupplyGeneric, SupplyLs, SupplyIo, Commit, PartialFlush, Flush, WriteBack;
    match step
    case DoSupplyGeneric => SupplyGenericOnly(s, 0);
    case DoSupplyLs => SupplyLsOnly(s, 0);
    case DoSupplyIo => SupplyIoOnly(s, 0);
    case DoExec => ExecExactly(s);
    case DoWriteBack(h) => WriteBackNotLonger(s, h);
    case DoPartialFlush(h) => PartialNotLonger(s, h);
    case DoCommit => CommitNotLonger(s);
    case DoInterrupt(c) => FlushNotLonger(s, c);
    case _ =>
  }

  // In every run no queue ever holds more than it has places.
  lemma {:induction false} QueuesWithinCaps(states: seq<State>, steps: seq<Step>, i: nat)
    requires Run(states, steps) && i < |states|
    ensures WithinCaps(states[i])
  {
    hide Next, Enabled;
    if i > 0 {
      QueuesWithinCaps(states, steps, i - 1);
      StepWithinCaps(states[i - 1], steps[i - 1]);
    }
  }

  // ---- links inside one instruction ----

  // The later micro-op comes to wait for the earlier one.
  lemma LinkJoins(s: State, c: nat, k: nat, j: nat)
    requires Inv(s) && c < |s.decoder| && j < k < |s.decoder[c]|
    ensures s.decoder[c][j] != s.decoder[c][k] && s.insts[s.decoder[c][j]].id < s.insts[s.decoder[c][k]].id
    ensures Joined(s, LinkMicrocode(s, c, k, j), s.decoder[c][k], s.decoder[c][j])
  {
    hide IssueOk;
    assert DecoderIdsOk(s, c);
  }
}
