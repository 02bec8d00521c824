// What holds of the window between any two operations.
module PipelineInvariant {
  import opened Common
  import opened PipelineState

  // ---- who is where ----

  // Decoded or being decoded, and not yet committed or squashed.
  ghost predicate Live(s: State, h: nat)
    requires Wf(s) && h < |s.insts|
  {
    h in s.rob || h in s.decoder[s.insts[h].cpu]
  }

  ghost function LiveSet(s: State): set<nat>
    requires Wf(s)
  {
    set h | 0 <= h < |s.insts| && Live(s, h)
  }

  // Every pooled instruction is in exactly one of supplier, decoder and
  // reorder buffer.
  ghost predicate PoolOk(s: State)
    requires Wf(s)
  {
    && NoDuplicates(s.supplier)
    && (forall h :: 0 <= h < |s.insts| ==> (h in s.supplier <==> !Live(s, h)))
    && (forall h :: h in s.rob ==> h !in s.decoder[s.insts[h].cpu])
    && (forall c, i :: 0 <= c < |s.decoder| && 0 <= i < |s.decoder[c]| ==> s.insts[s.decoder[c][i]].cpu == c)
  }

  // Ids of one cpu ascend along the list.
  ghost predicate Ascending(q: seq<nat>, insts: seq<Inst>)
    requires AllBelow(q, |insts|)
  {
    forall i, j :: 0 <= i < j < |q| && insts[q[i]].cpu == insts[q[j]].cpu ==> insts[q[i]].id < insts[q[j]].id
  }

  ghost predicate Before(p: seq<nat>, q: seq<nat>, insts: seq<Inst>)
    requires AllBelow(p, |insts|) && AllBelow(q, |insts|)
  {
    forall i, j :: 0 <= i < |p| && 0 <= j < |q| && insts[p[i]].cpu == insts[q[j]].cpu ==> insts[p[i]].id < insts[q[j]].id
  }

  ghost predicate BelowNext(q: seq<nat>, insts: seq<Inst>, nextId: seq<nat>)
    requires AllBelow(q, |insts|) && InstsWf(insts, |nextId|)
  {
    forall i :: 0 <= i < |q| ==> insts[q[i]].id < nextId[insts[q[i]].cpu]
  }

  // Per cpu, the reorder buffer followed by the decoder is in id order.
  ghost predicate IdsOk(s: State)
    requires Wf(s)
  {
    && Ascending(s.rob, s.insts)
    && BelowNext(s.rob, s.insts, s.nextId)
    && forall c :: 0 <= c < |s.decoder| ==> DecoderIdsOk(s, c)
  }

  ghost predicate DecoderIdsOk(s: State, c: nat)
    requires Wf(s) && c < |s.decoder|
  {
    && Ascending(s.decoder[c], s.insts)
    && Before(s.rob, s.decoder[c], s.insts)
    && BelowNext(s.decoder[c], s.insts, s.nextId)
  }

  // ---- dependency graph ----

  // Link i of dep_in of h and the slot it names in dep_out of the source point
  // at each other, and the source is older, live and of the same cpu.
  ghost predicate InLinkOk(insts: seq<Inst>, live: set<nat>, h: nat, i: nat)
    requires h < |insts| && i < |insts[h].depIn| && insts[h].depIn[i].peer.Some?
  {
    var g, k := insts[h].depIn[i].peer.value, insts[h].depIn[i].back;
    && g in live && g < |insts| && k < |insts[g].depOut| && insts[g].depOut[k] == Link(Some(h), i)
    && insts[g].cpu == insts[h].cpu && insts[g].id < insts[h].id
  }

  ghost predicate OutLinkOk(insts: seq<Inst>, live: set<nat>, g: nat, k: nat)
    requires g < |insts| && k < |insts[g].depOut| && insts[g].depOut[k].peer.Some?
  {
    var h, i := insts[g].depOut[k].peer.value, insts[g].depOut[k].back;
    h in live && h < |insts| && i < |insts[h].depIn| && insts[h].depIn[i] == Link(Some(g), k)
  }

  ghost predicate Edges(insts: seq<Inst>, live: set<nat>)
    requires forall h :: h in live ==> h < |insts|
  {
    && (forall h, i :: h in live && 0 <= i < |insts[h].depIn| && insts[h].depIn[i].peer.Some? ==> InLinkOk(insts, live, h, i))
    && (forall g, k :: g in live && 0 <= k < |insts[g].depOut| && insts[g].depOut[k].peer.Some? ==> OutLinkOk(insts, live, g, k))
  }

  function Nulls(links: seq<Link>): nat {
    if links == [] then 0 else Nulls(links[1..]) + if links[0].peer.None? then 1 else 0
  }

  ghost predicate AllNull(links: seq<Link>) {
    forall i :: 0 <= i < |links| ==> links[i].peer.None?
  }

  // dep_in_resolved counts the cleared links.
  ghost predicate CountsOk(insts: seq<Inst>, live: set<nat>)
    requires forall h :: h in live ==> h < |insts|
  {
    forall h :: h in live ==> insts[h].resolved == Nulls(insts[h].depIn)
  }

  ghost predicate StatusOk(s: State)
    requires Wf(s)
  {
    && (forall h :: h in s.rob ==> RobStatusOk(s.insts[h]))
    && (forall h :: h in LiveSet(s) && s.insts[h].status == Ready ==> AllNull(s.insts[h].depOut))
    && (forall c, i :: 0 <= c < |s.decoder| && 0 <= i < |s.decoder[c]| ==> s.insts[s.decoder[c][i]].status in {Decoding, DepReady})
  }

  ghost predicate RobStatusOk(x: Inst) {
    && x.status != Decoding
    && (x.status == WaitDep <==> x.resolved < |x.depIn|)
    && (x.status != WaitDep ==> x.resolved == |x.depIn|)
    && (QueueOf(x.kind) == NoQueue ==> x.status == Ready)
  }

  // A register names a producer that has not written back yet and that will
  // clear the register when it does.
  ghost predicate RegsOk(s: State)
    requires Wf(s)
  {
    forall c, r :: 0 <= c < |s.regs| && r in s.regs[c] ==>
      var h := s.regs[c][r];
      Live(s, h) && s.insts[h].cpu == c && s.insts[h].status != Ready && r in s.insts[h].outRegs
  }

  // ---- queues and units ----

  ghost predicate QueueOk(s: State, q: seq<nat>, kind: Queue)
    requires Wf(s) && AllBelow(q, |s.insts|)
  {
    && Ascending(q, s.insts)
    && (forall i :: 0 <= i < |q| ==> q[i] in s.rob)
    && (forall h :: h in s.rob ==> (h in q <==> QueueOf(s.insts[h].kind) == kind && s.insts[h].status != Ready))
  }

  ghost predicate QueuesOk(s: State)
    requires Wf(s)
  {
    && QueueOk(s, s.generic, GenericQueue)
    && QueueOk(s, s.ls, LoadStoreQueue)
    && QueueOk(s, s.io, IoQueue)
  }

  ghost predicate UnitsOk(s: State)
    requires Wf(s)
  {
    && (forall u :: 0 <= u < |s.units| && s.units[u].busy.Some? ==>
        var h := s.units[u].busy.value;
        h in s.rob && s.insts[h].status == Executing && h !in s.response)
    && (forall u, v :: 0 <= u < v < |s.units| && s.units[u].busy.Some? ==> s.units[u].busy != s.units[v].busy)
    && NoDuplicates(s.response)
    && (forall i :: 0 <= i < |s.response| ==> s.response[i] in s.rob && s.insts[s.response[i]].status == Executing)
  }

  // ---- stores and port operations only execute at the head ----

  ghost predicate FlagOk(s: State, c: nat, kind: Queue)
    requires Wf(s)
  {
    && s.rob != []
    && var x := s.insts[s.rob[0]];
    x.cpu == c && x.status == DepReady && Ordered(x.kind) && QueueOf(x.kind) == kind
  }

  ghost predicate HeadsOk(s: State)
    requires Wf(s)
  {
    && (forall c :: 0 <= c < |s.writeReady| && s.writeReady[c] ==> FlagOk(s, c, LoadStoreQueue))
    && (forall c :: 0 <= c < |s.mustIssue| && s.mustIssue[c] ==> FlagOk(s, c, IoQueue))
    && (forall h :: h in s.rob && Ordered(s.insts[h].kind) && s.insts[h].status in {Executing, Ready} ==> h == s.rob[0])
  }

  // ---- history ----

  ghost predicate EventBefore(e: Event, x: Inst) {
    match e
    case Committed(c, id) => c == x.cpu ==> id < x.id
    case Issued(c, id, k) => c == x.cpu && Ordered(k) ==>
      id < x.id || (id == x.id && x.status in {Executing, Ready})
  }

  // Committed ids of a cpu ascend, and so do the ids of its issued stores and
  // port operations.
  ghost predicate TraceOrdered(t: seq<Event>) {
    forall i, j :: 0 <= i < j < |t| && t[i].cpu == t[j].cpu ==>
      (t[i].Committed? && t[j].Committed? ==> t[i].id < t[j].id) &&
      (t[i].Issued? && t[j].Issued? && Ordered(t[i].kind) && Ordered(t[j].kind) ==> t[i].id < t[j].id)
  }

  ghost predicate TraceOk(s: State)
    requires Wf(s)
  {
    && TraceOrdered(s.trace)
    && (forall e, h :: e in s.trace && h in LiveSet(s) ==> EventBefore(e, s.insts[h]))
    && (forall e :: e in s.trace && e.cpu < |s.nextId| ==> e.id < s.nextId[e.cpu])
  }

  ghost predicate GraphOk(s: State)
    requires Wf(s)
  {
    PoolOk(s) && IdsOk(s) && Edges(s.insts, LiveSet(s)) && CountsOk(s.insts, LiveSet(s)) && StatusOk(s) && RegsOk(s)
  }

  ghost predicate IssueOk(s: State)
    requires Wf(s)
  {
    QueuesOk(s) && UnitsOk(s) && HeadsOk(s) && TraceOk(s)
  }

  ghost predicate Inv(s: State) {
    Wf(s) && GraphOk(s) && IssueOk(s)
  }
}
