// The three reservation queues keep the invariant when they supply the units,
// and only ever start a store or port operation that is the oldest instruction.
module PipelineIssue {
  import opened PipelineState
  import opened PipelineSteps
  import opened PipelineInvariant
  import opened PipelineFrame

  // h is waiting with its dependencies resolved, u is idle, and h does not
  // overtake anything when order matters.
  ghost predicate CanStart(s: State, h: nat, u: nat)
    requires Wf(s)
  {
    && h < |s.insts| && u < |s.units| && s.units[u].busy.None?
    && h in s.rob && s.insts[h].status == DepReady
    && (Ordered(s.insts[h].kind) ==> h == s.rob[0])
  }

  // The flags left standing after h was started.
  ghost predicate FlagsAfter(s: State, h: nat, before: seq<bool>, after: seq<bool>)
    requires Wf(s) && h < |s.insts|
  {
    && |after| == |before| == |s.decoder|
    && forall c :: 0 <= c < |after| && after[c] ==> before[c] && (Ordered(s.insts[h].kind) ==> c != s.insts[h].cpu)
  }

  ghost function Started(s: State, h: nat, u: nat, wr: seq<bool>, mi: seq<bool>): (t: State)
    requires Wf(s) && CanStart(s, h, u) && FlagsAfter(s, h, s.writeReady, wr) && FlagsAfter(s, h, s.mustIssue, mi)
    ensures Wf(t) && SamePlaces(s, t) && SameIdentity(s.insts, t.insts) && SameLinks(s.insts, t.insts)
  {
    Start(s, h, u).(writeReady := wr, mustIssue := mi)
  }

  lemma StartedGraph(s: State, h: nat, u: nat, wr: seq<bool>, mi: seq<bool>)
    requires Wf(s) && GraphOk(s)
    requires CanStart(s, h, u) && FlagsAfter(s, h, s.writeReady, wr) && FlagsAfter(s, h, s.mustIssue, mi)
    ensures GraphOk(Started(s, h, u, wr, mi))
  {
    var t := Started(s, h, u, wr, mi);
    PoolFrame(s, t);
    StartedStatus(s, h, u, wr, mi);
    GraphFrame(s, t);
  }

  lemma StartedStatus(s: State, h: nat, u: nat, wr: seq<bool>, mi: seq<bool>)
    requires Wf(s) && PoolOk(s) && StatusOk(s)
    requires CanStart(s, h, u) && FlagsAfter(s, h, s.writeReady, wr) && FlagsAfter(s, h, s.mustIssue, mi)
    ensures StatusOk(Started(s, h, u, wr, mi))
  {
    var t := Started(s, h, u, wr, mi);
    PoolFrame(s, t);
    forall g | g in t.rob
      ensures RobStatusOk(t.insts[g])
    {
      assert RobStatusOk(s.insts[g]);
    }
  }

  lemma StartedQueues(s: State, h: nat, u: nat, wr: seq<bool>, mi: seq<bool>)
    requires Wf(s) && QueuesOk(s)
    requires CanStart(s, h, u) && FlagsAfter(s, h, s.writeReady, wr) && FlagsAfter(s, h, s.mustIssue, mi)
    ensures QueuesOk(Started(s, h, u, wr, mi))
  {
    var t := Started(s, h, u, wr, mi);
    StartedQueue(s, t, h, s.generic, GenericQueue);
    StartedQueue(s, t, h, s.ls, LoadStoreQueue);
    StartedQueue(s, t, h, s.io, IoQueue);
  }

  lemma StartedQueue(s: State, t: State, h: nat, q: seq<nat>, kind: Queue)
    requires Wf(s) && Wf(t) && AllBelow(q, |s.insts|) && QueueOk(s, q, kind)
    requires h < |s.insts| && s.insts[h].status == DepReady && s.rob == t.rob
    requires t.insts == s.insts[h := s.insts[h].(status := Executing)]
    ensures QueueOk(t, q, kind)
  {
  }

  lemma StartedUnits(s: State, h: nat, u: nat, wr: seq<bool>, mi: seq<bool>)
    requires Wf(s) && UnitsOk(s)
    requires CanStart(s, h, u) && FlagsAfter(s, h, s.writeReady, wr) && FlagsAfter(s, h, s.mustIssue, mi)
    ensures UnitsOk(Started(s, h, u, wr, mi))
  {
  }

  lemma StartedHeads(s: State, h: nat, u: nat, wr: seq<bool>, mi: seq<bool>)
    requires Wf(s) && HeadsOk(s)
    requires CanStart(s, h, u) && FlagsAfter(s, h, s.writeReady, wr) && FlagsAfter(s, h, s.mustIssue, mi)
    ensures HeadsOk(Started(s, h, u, wr, mi))
  {
  }

  lemma StartedTrace(s: State, h: nat, u: nat, wr: seq<bool>, mi: seq<bool>)
    requires Wf(s) && PoolOk(s) && IdsOk(s) && TraceOk(s)
    requires CanStart(s, h, u) && FlagsAfter(s, h, s.writeReady, wr) && FlagsAfter(s, h, s.mustIssue, mi)
    ensures TraceOk(Started(s, h, u, wr, mi))
  {
    var t, x := Started(s, h, u, wr, mi), s.insts[h];
    PoolFrame(s, t);
    assert h in LiveSet(s);
    var e0 := Issued(x.cpu, x.id, x.kind);
    assert forall e :: e in s.trace ==> EventBefore(e, x);
    forall e, g | e in t.trace && g in LiveSet(t)
      ensures EventBefore(e, t.insts[g])
    {
      if e in s.trace {
        assert EventBefore(e, s.insts[g]);
      } else {
        assert e == e0;
        if Ordered(x.kind) && g != h && s.insts[g].cpu == x.cpu {
          HeadIsOldest(s, g);
        }
      }
    }
    forall i, j | 0 <= i < j < |t.trace| && t.trace[i].cpu == t.trace[j].cpu
      ensures t.trace[i].Committed? && t.trace[j].Committed? ==> t.trace[i].id < t.trace[j].id
      ensures t.trace[i].Issued? && t.trace[j].Issued? && Ordered(t.trace[i].kind) && Ordered(t.trace[j].kind) ==> t.trace[i].id < t.trace[j].id
    {
      assert t.trace[i] in s.trace;
    }
    assert s.insts[h].id < s.nextId[x.cpu] by {
      var i :| 0 <= i < |s.rob| && s.rob[i] == h;
    }
  }

  // The head of the reorder buffer is the oldest live instruction of its cpu.
  lemma HeadIsOldest(s: State, g: nat)
    requires Wf(s) && PoolOk(s) && IdsOk(s) && s.rob != []
    requires g in LiveSet(s) && g != s.rob[0] && s.insts[g].cpu == s.insts[s.rob[0]].cpu
    ensures s.insts[s.rob[0]].id < s.insts[g].id
  {
    if g in s.rob {
      var i :| 0 <= i < |s.rob| && s.rob[i] == g;
    } else {
      var c := s.insts[g].cpu;
      var i :| 0 <= i < |s.decoder[c]| && s.decoder[c][i] == g;
      assert DecoderIdsOk(s, c);
    }
  }

  lemma StartedIssue(s: State, h: nat, u: nat, wr: seq<bool>, mi: seq<bool>)
    requires Wf(s) && PoolOk(s) && IdsOk(s) && IssueOk(s)
    requires CanStart(s, h, u) && FlagsAfter(s, h, s.writeReady, wr) && FlagsAfter(s, h, s.mustIssue, mi)
    ensures IssueOk(Started(s, h, u, wr, mi))
  {
    StartedQueues(s, h, u, wr, mi);
    StartedUnits(s, h, u, wr, mi);
    StartedHeads(s, h, u, wr, mi);
    StartedTrace(s, h, u, wr, mi);
  }

  lemma StartedKeepsInv(s: State, h: nat, u: nat, wr: seq<bool>, mi: seq<bool>)
    requires Inv(s)
    requires CanStart(s, h, u) && FlagsAfter(s, h, s.writeReady, wr) && FlagsAfter(s, h, s.mustIssue, mi)
    ensures Inv(Started(s, h, u, wr, mi))
  {
    StartedGraph(s, h, u, wr, mi);
    StartedIssue(s, h, u, wr, mi);
  }

  lemma GenericEntryStarts(s: State, i: nat, u: nat)
    requires Inv(s) && i < |s.generic| && s.insts[s.generic[i]].status == DepReady
    requires u < |s.units| && s.units[u].busy.None?
    ensures Inv(Start(s, s.generic[i], u))
  {
    var h := s.generic[i];
    assert h in s.rob && QueueOf(s.insts[h].kind) == GenericQueue by {
      assert QueueOk(s, s.generic, GenericQueue);
      assert h in s.generic;
    }
    StartedKeepsInv(s, h, u, s.writeReady, s.mustIssue);
    assert Started(s, h, u, s.writeReady, s.mustIssue) == Start(s, h, u);
  }

  lemma {:induction false} SupplyGenericKeepsInv(s: State, i: nat)
    requires Inv(s) && i <= |s.generic|
    ensures Inv(SupplyGeneric(s, i)) && SupplyGeneric(s, i).rob == s.rob
    decreases |s.generic| - i
  {
    hide GraphOk, IssueOk;
    if i < |s.generic| {
      var h := s.generic[i];
      var u := FreeUnit(s.units, s.insts[h].kind);
      if s.insts[h].status == DepReady && u.Some? {
        GenericEntryStarts(s, i, u.value);
        SupplyGenericKeepsInv(Start(s, h, u.value), i + 1);
      } else {
        SupplyGenericKeepsInv(s, i + 1);
      }
    }
  }

  // No store at a scanned position is still able to take the flag.
  ghost predicate Scanned(s: State, i: nat)
    requires Wf(s)
  {
    forall j :: 0 <= j < i && j < |s.ls| ==>
      var x := s.insts[s.ls[j]];
      !(x.status == DepReady && x.kind == Store && s.writeReady[x.cpu])
  }

  // A store that sees the flag of its cpu set is the one that commit is
  // waiting for.
  lemma FlaggedStoreIsHead(s: State, i: nat)
    requires Inv(s) && i < |s.ls| && Scanned(s, i)
    requires s.insts[s.ls[i]].kind == Store && s.writeReady[s.insts[s.ls[i]].cpu]
    ensures s.ls[i] == s.rob[0]
  {
    var h, g := s.ls[i], s.rob[0];
    assert g in s.rob && FlagOk(s, s.insts[h].cpu, LoadStoreQueue);
    assert QueueOk(s, s.ls, LoadStoreQueue);
    assert g in s.ls && h in s.rob;
    var p :| 0 <= p < |s.ls| && s.ls[p] == g;
  }

  lemma LsEntryStarts(s: State, i: nat, u: nat)
    requires Inv(s) && i < |s.ls| && s.insts[s.ls[i]].status == DepReady && Scanned(s, i)
    requires s.insts[s.ls[i]].kind == Store ==> s.writeReady[s.insts[s.ls[i]].cpu]
    requires u < |s.units| && s.units[u].busy.None?
    ensures Inv(Start(s, s.ls[i], u).(writeReady := s.writeReady[s.insts[s.ls[i]].cpu := false]))
  {
    var h, c := s.ls[i], s.insts[s.ls[i]].cpu;
    if s.insts[h].kind == Store { FlaggedStoreIsHead(s, i); }
    var wr := s.writeReady[c := false];
    LsEntry(s, i);
    assert FlagsAfter(s, h, s.mustIssue, s.mustIssue) by {
      assert forall d :: 0 <= d < |s.mustIssue| && s.mustIssue[d] ==> FlagOk(s, d, IoQueue);
    }
    StartedKeepsInv(s, h, u, wr, s.mustIssue);
    assert Started(s, h, u, wr, s.mustIssue) == Start(s, h, u).(writeReady := wr);
  }

  lemma LsEntry(s: State, i: nat)
    requires Wf(s) && QueuesOk(s) && i < |s.ls|
    ensures s.ls[i] in s.rob && QueueOf(s.insts[s.ls[i]].kind) == LoadStoreQueue
  {
    assert QueueOk(s, s.ls, LoadStoreQueue);
    assert s.ls[i] in s.ls;
  }

  lemma {:induction false} SupplyLsKeepsInv(s: State, i: nat)
    requires Inv(s) && i <= |s.ls| && Scanned(s, i)
    ensures Inv(SupplyLs(s, i)) && SupplyLs(s, i).rob == s.rob
    decreases |s.ls| - i
  {
    hide GraphOk, IssueOk;
    if i < |s.ls| {
      var h := s.ls[i];
      var x := s.insts[h];
      var u := FreeUnit(s.units, x.kind);
      if x.kind == Store && !s.writeReady[x.cpu] {
        SupplyLsKeepsInv(s, i + 1);
      } else if x.status == DepReady {
        if u.Some? {
          LsEntryStarts(s, i, u.value);
          SupplyLsKeepsInv(Start(s, h, u.value).(writeReady := s.writeReady[x.cpu := false]), i + 1);
        }
      } else {
        SupplyLsKeepsInv(s, i + 1);
      }
    }
  }

  // The first queue entry whose cpu has must_issue set is the instruction that
  // commit is waiting for.
  lemma FlaggedIoIsHead(s: State, i: nat)
    requires Inv(s) && i < |s.io| && s.mustIssue[s.insts[s.io[i]].cpu]
    requires forall j :: 0 <= j < i ==> !s.mustIssue[s.insts[s.io[j]].cpu]
    ensures s.io[i] == s.rob[0] && s.insts[s.rob[0]].status == DepReady
  {
    var h, g := s.io[i], s.rob[0];
    assert g in s.rob && FlagOk(s, s.insts[h].cpu, IoQueue);
    assert QueueOk(s, s.io, IoQueue);
    assert g in s.io && h in s.rob;
    var p :| 0 <= p < |s.io| && s.io[p] == g;
  }

  // The oldest entry cannot be both an io operation and a store.
  lemma NoStoreReady(s: State, c: nat)
    requires Wf(s) && HeadsOk(s) && c < |s.mustIssue| && s.mustIssue[c]
    ensures forall d :: 0 <= d < |s.writeReady| ==> !s.writeReady[d]
  {
    assert FlagOk(s, c, IoQueue);
  }

  lemma IoEntryStarts(s: State, i: nat, u: nat)
    requires Inv(s) && i < |s.io| && s.mustIssue[s.insts[s.io[i]].cpu]
    requires forall j :: 0 <= j < i ==> !s.mustIssue[s.insts[s.io[j]].cpu]
    requires u < |s.units| && s.units[u].busy.None?
    ensures Inv(Start(s, s.io[i], u).(mustIssue := s.mustIssue[s.insts[s.io[i]].cpu := false]))
  {
    var h, c := s.io[i], s.insts[s.io[i]].cpu;
    FlaggedIoIsHead(s, i);
    assert h in s.rob && QueueOf(s.insts[h].kind) == IoQueue by { assert QueueOk(s, s.io, IoQueue); }
    var mi := s.mustIssue[c := false];
    NoStoreReady(s, c);
    StartedKeepsInv(s, h, u, s.writeReady, mi);
    assert Started(s, h, u, s.writeReady, mi) == Start(s, h, u).(mustIssue := mi);
  }

  lemma {:induction false} SupplyIoKeepsInv(s: State, i: nat)
    requires Inv(s) && i <= |s.io|
    requires forall j :: 0 <= j < i ==> !s.mustIssue[s.insts[s.io[j]].cpu]
    ensures Inv(SupplyIo(s, i)) && SupplyIo(s, i).rob == s.rob
    decreases |s.io| - i
  {
    hide GraphOk, IssueOk;
    if i < |s.io| {
      var h := s.io[i];
      var u := FreeUnit(s.units, s.insts[h].kind);
      if !s.mustIssue[s.insts[h].cpu] {
        SupplyIoKeepsInv(s, i + 1);
      } else if u.Some? {
        IoEntryStarts(s, i, u.value);
      }
    }
  }
}
