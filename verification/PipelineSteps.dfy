// What each operation of the window does to its state.  These functions are
// the specification of the methods in Pipeline.dfy.
module PipelineSteps {
  import opened Common
  import opened PipelineState

  // ---- dependency links ----

  function ClearSlot(links: seq<Link>, pos: nat): seq<Link> {
    if pos < |links| then links[pos := links[pos].(peer := None)] else links
  }

  // rs_instruction_t::reset: a recycled instruction forgets all its links.
  function Fresh(c: nat, id: nat): Inst {
    Inst(c, id, Decoding, NoUnit, [], 0, [], [], false, true, 0)
  }

  // rs_instruction_t::create_dep
  function CreateDep(insts: seq<Inst>, dest: nat, src: nat): (r: seq<Inst>)
    requires dest < |insts| && src < |insts| && dest != src
    ensures |r| == |insts|
  {
    var d, s := insts[dest], insts[src];
    insts[dest := d.(depIn := d.depIn + [Link(Some(src), |s.depOut|)])]
         [src := s.(depOut := s.depOut + [Link(Some(dest), |d.depIn|)])]
  }

  // One iteration of the loop in rs_instruction_t::write_back.
  function ResolveOut(insts: seq<Inst>, g: nat, k: nat, cpus: nat): (r: seq<Inst>)
    requires g < |insts| && InstsWf(insts, cpus)
    ensures InstsWf(r, cpus) && SameShape(insts, r)
  {
    if k >= |insts[g].depOut| || insts[g].depOut[k].peer.None? then insts
    else
      var h, pos := insts[g].depOut[k].peer.value, insts[g].depOut[k].back;
      var x := insts[h].(depIn := ClearSlot(insts[h].depIn, pos), resolved := insts[h].resolved + 1);
      var y := if x.resolved >= |x.depIn| then x.(status := DepReady) else x;
      var a := insts[h := y];
      a[g := a[g].(depOut := ClearSlot(a[g].depOut, k))]
  }

  ghost predicate SameShape(a: seq<Inst>, b: seq<Inst>) {
    && |a| == |b|
    && forall h :: 0 <= h < |a| ==>
      && a[h].cpu == b[h].cpu && a[h].id == b[h].id && a[h].kind == b[h].kind && a[h].latency == b[h].latency
      && |a[h].depIn| == |b[h].depIn| && |a[h].depOut| == |b[h].depOut| && a[h].outRegs == b[h].outRegs
  }

  function ResolveFrom(insts: seq<Inst>, g: nat, k: nat, cpus: nat): (r: seq<Inst>)
    requires g < |insts| && InstsWf(insts, cpus)
    ensures InstsWf(r, cpus) && SameShape(insts, r)
    decreases |insts[g].depOut| - k
  {
    if k >= |insts[g].depOut| then insts
    else ResolveFrom(ResolveOut(insts, g, k, cpus), g, k + 1, cpus)
  }

  // One iteration of the loop in rs_instruction_t::flush_on_write_back.
  function UnlinkIn(insts: seq<Inst>, h: nat, i: nat, cpus: nat): (r: seq<Inst>)
    requires h < |insts| && InstsWf(insts, cpus)
    ensures InstsWf(r, cpus) && SameShape(insts, r)
  {
    if i >= |insts[h].depIn| || insts[h].depIn[i].peer.None? then insts
    else
      var g, pos := insts[h].depIn[i].peer.value, insts[h].depIn[i].back;
      var a := insts[g := insts[g].(depOut := ClearSlot(insts[g].depOut, pos))];
      a[h := a[h].(depIn := ClearSlot(a[h].depIn, i))]
  }

  function UnlinkFrom(insts: seq<Inst>, h: nat, i: nat, cpus: nat): (r: seq<Inst>)
    requires h < |insts| && InstsWf(insts, cpus)
    ensures InstsWf(r, cpus) && SameShape(insts, r)
    decreases |insts[h].depIn| - i
  {
    if i >= |insts[h].depIn| then insts
    else UnlinkFrom(UnlinkIn(insts, h, i, cpus), h, i + 1, cpus)
  }

  // ---- register bank ----

  function ForgetProducer(bank: map<nat, nat>, h: nat, outRegs: seq<nat>): map<nat, nat> {
    map r | r in bank && !(r in outRegs && bank[r] == h) :: bank[r]
  }

  function DropRegs(bank: map<nat, nat>, insts: seq<Inst>, from: nat): map<nat, nat>
    requires forall r :: r in bank ==> bank[r] < |insts|
  {
    map r | r in bank && insts[bank[r]].id < from :: bank[r]
  }

  // ---- squashing: drop the instructions of cpu c with id >= from ----

  predicate Hit(x: Inst, c: nat, from: nat) {
    x.cpu == c && x.id >= from
  }

  function Keep(q: seq<nat>, insts: seq<Inst>, c: nat, from: nat): (r: seq<nat>)
    requires AllBelow(q, |insts|)
    ensures forall h :: h in r <==> h in q && !Hit(insts[h], c, from)
    ensures AllBelow(r, |insts|)
  {
    if q == [] then []
    else if Hit(insts[q[0]], c, from) then Keep(q[1..], insts, c, from)
    else [q[0]] + Keep(q[1..], insts, c, from)
  }

  function Squashed(q: seq<nat>, insts: seq<Inst>, c: nat, from: nat): (r: seq<nat>)
    requires AllBelow(q, |insts|)
    ensures forall h :: h in r <==> h in q && Hit(insts[h], c, from)
    ensures AllBelow(r, |insts|)
  {
    if q == [] then []
    else if Hit(insts[q[0]], c, from) then [q[0]] + Squashed(q[1..], insts, c, from)
    else Squashed(q[1..], insts, c, from)
  }

  function KeepUnits(units: seq<Unit>, insts: seq<Inst>, c: nat, from: nat): (r: seq<Unit>)
    requires UnitsInRange(units, |insts|)
    ensures |r| == |units|
    ensures forall u :: 0 <= u < |r| ==> r[u].busy.Some? ==> r[u].busy == units[u].busy
  {
    seq(|units|, u requires 0 <= u < |units| =>
      if units[u].busy.Some? && Hit(insts[units[u].busy.value], c, from) then units[u].(busy := None) else units[u])
  }

  // What every component does in both kinds of flush.
  function SquashQueues(s: State, c: nat, from: nat): (r: State)
    requires Wf(s)
    ensures Wf(r)
  {
    s.(generic := Keep(s.generic, s.insts, c, from),
       ls := Keep(s.ls, s.insts, c, from),
       io := Keep(s.io, s.insts, c, from),
       units := KeepUnits(s.units, s.insts, c, from))
  }

  // ---- decoder side ----

  // decoder_t::alocate_inst_, one slot
  function Alloc(s: State, c: nat): (r: State)
    requires Wf(s) && c < |s.decoder|
    ensures Wf(r)
  {
    if s.supplier == [] then s
    else
      var h := s.supplier[0];
      s.(supplier := s.supplier[1..],
         insts := s.insts[h := Fresh(c, s.nextId[c])],
         nextId := s.nextId[c := s.nextId[c] + 1],
         decoder := s.decoder[c := s.decoder[c] + [h]])
  }

  function Describe(s: State, c: nat, k: nat, kind: Kind, serial: bool, foresight: bool, latency: nat): (r: State)
    requires Wf(s) && c < |s.decoder| && k < |s.decoder[c]|
    ensures Wf(r)
  {
    var h := s.decoder[c][k];
    s.(insts := s.insts[h := s.insts[h].(kind := kind, serial := serial, foresight := foresight, latency := latency)])
  }

  // GET_DEP followed by CREATE_DEP
  function ReadReg(s: State, c: nat, k: nat, r: nat): (t: State)
    requires Wf(s) && c < |s.decoder| && k < |s.decoder[c]|
    requires r in s.regs[c] ==> s.regs[c][r] != s.decoder[c][k]
    ensures Wf(t)
  {
    if r in s.regs[c] then s.(insts := CreateDep(s.insts, s.decoder[c][k], s.regs[c][r])) else s
  }

  // CPU_X8664_CREATE_MICROCODE_LINK
  function LinkMicrocode(s: State, c: nat, k: nat, j: nat): (r: State)
    requires Wf(s) && c < |s.decoder| && j < k < |s.decoder[c]| && s.decoder[c][j] != s.decoder[c][k]
    ensures Wf(r)
  {
    s.(insts := CreateDep(s.insts, s.decoder[c][k], s.decoder[c][j]))
  }

  // SET_DEP
  function WriteReg(s: State, c: nat, k: nat, r: nat): (t: State)
    requires Wf(s) && c < |s.decoder| && k < |s.decoder[c]|
    ensures Wf(t)
  {
    var h := s.decoder[c][k];
    var bank: map<nat, nat> := s.regs[c][r := h];
    s.(regs := s.regs[c := bank],
       insts := s.insts[h := s.insts[h].(outRegs := s.insts[h].outRegs + [r])])
  }

  function QueueFull(s: State, q: Queue): bool {
    match q
    case NoQueue => false
    case GenericQueue => |s.generic| >= s.genericCap
    case LoadStoreQueue => |s.ls| >= s.lsCap
    case IoQueue => |s.io| >= s.ioCap
  }

  // processor_t::dispatch and rs_policy_just_one_t::add; nothing changes when
  // the queue is full.
  function Dispatch(s: State, c: nat): (r: State)
    requires Wf(s) && c < |s.decoder| && s.decoder[c] != []
    ensures Wf(r)
  {
    var h := s.decoder[c][0];
    var x := s.insts[h];
    var q := QueueOf(x.kind);
    if QueueFull(s, q) then s
    else
      var st := if q == NoQueue then Ready else if x.resolved == |x.depIn| then DepReady else WaitDep;
      s.(insts := s.insts[h := x.(status := st)],
         decoder := s.decoder[c := s.decoder[c][1..]],
         rob := s.rob + [h],
         generic := if q == GenericQueue then s.generic + [h] else s.generic,
         ls := if q == LoadStoreQueue then s.ls + [h] else s.ls,
         io := if q == IoQueue then s.io + [h] else s.io)
  }

  // ---- issue ----

  // functional_units_t::issue: the first idle unit able to execute the kind.
  function FreeUnit(units: seq<Unit>, k: Kind): (r: Option<nat>)
    ensures r.Some? ==> r.value < |units| && units[r.value].busy == None && k in units[r.value].kinds
    ensures r.None? ==> forall u :: 0 <= u < |units| && k in units[u].kinds ==> units[u].busy.Some?
  {
    if units == [] then None
    else if units[0].busy == None && k in units[0].kinds then Some(0)
    else
      var r := FreeUnit(units[1..], k);
      if r.Some? then Some(r.value + 1) else None
  }

  // Sends h to unit u.
  function Start(s: State, h: nat, u: nat): (r: State)
    requires Wf(s) && h < |s.insts| && u < |s.units|
    ensures Wf(r)
  {
    var x := s.insts[h];
    s.(units := s.units[u := s.units[u].(busy := Some(h), cycles := 0)],
       insts := s.insts[h := x.(status := Executing)],
       trace := s.trace + [Issued(x.cpu, x.id, x.kind)])
  }

  // rs_policy_just_one_t::supply from position i of its queue
  function SupplyGeneric(s: State, i: nat): (r: State)
    requires Wf(s) && i <= |s.generic|
    ensures Wf(r)
    decreases |s.generic| - i
  {
    if i == |s.generic| then s
    else
      var h := s.generic[i];
      var u := FreeUnit(s.units, s.insts[h].kind);
      if s.insts[h].status == DepReady && u.Some? then SupplyGeneric(Start(s, h, u.value), i + 1)
      else SupplyGeneric(s, i + 1)
  }

  // rs_policy_ls_queue_simple_t::supply
  function SupplyLs(s: State, i: nat): (r: State)
    requires Wf(s) && i <= |s.ls|
    ensures Wf(r)
    decreases |s.ls| - i
  {
    if i == |s.ls| then s
    else
      var h := s.ls[i];
      var x := s.insts[h];
      var u := FreeUnit(s.units, x.kind);
      if x.kind == Store && !s.writeReady[x.cpu] then SupplyLs(s, i + 1)
      else if x.status == DepReady then
        if u.Some? then SupplyLs(Start(s, h, u.value).(writeReady := s.writeReady[x.cpu := false]), i + 1)
        else s
      else SupplyLs(s, i + 1)
  }

  // rs_policy_io_queue_t::supply
  function SupplyIo(s: State, i: nat): (r: State)
    requires Wf(s) && i <= |s.io|
    ensures Wf(r)
    decreases |s.io| - i
  {
    if i == |s.io| then s
    else
      var h := s.io[i];
      var x := s.insts[h];
      var u := FreeUnit(s.units, x.kind);
      if !s.mustIssue[x.cpu] then SupplyIo(s, i + 1)
      else if u.Some? then Start(s, h, u.value).(mustIssue := s.mustIssue[x.cpu := false])
      else s
  }

  // ---- execution and write-back ----

  // functional_units_t::exec from unit u
  function Exec(s: State, u: nat): (r: State)
    requires Wf(s) && u <= |s.units|
    ensures Wf(r)
    decreases |s.units| - u
  {
    if u == |s.units| then s
    else if s.units[u].busy.None? then Exec(s, u + 1)
    else
      var h, n := s.units[u].busy.value, s.units[u].cycles;
      if n >= s.insts[h].latency then
        Exec(s.(units := s.units[u := s.units[u].(busy := None, cycles := n + 1)], response := s.response + [h]), u + 1)
      else
        Exec(s.(units := s.units[u := s.units[u].(cycles := n + 1)]), u + 1)
  }

  // rs_instruction_t::write_back followed by rs_policy->del
  function WriteBack(s: State, h: nat): (r: State)
    requires Wf(s) && h in s.response
    ensures Wf(r)
  {
    var c := s.insts[h].cpu;
    var a := s.insts[h := s.insts[h].(status := Ready)];
    s.(insts := ResolveFrom(a, h, 0, |s.decoder|),
       regs := s.regs[c := ForgetProducer(s.regs[c], h, s.insts[h].outRegs)],
       generic := Without(s.generic, h), ls := Without(s.ls, h), io := Without(s.io, h),
       response := Without(s.response, h))
  }

  // ---- flushes ----

  // The decoder's entries go back to the supplier, newest first; the cpu
  // forgets its producers and its permissions to issue.
  function Forgotten(s: State, c: nat): (r: State)
    requires Wf(s) && c < |s.decoder|
    ensures Wf(r)
  {
    s.(supplier := s.supplier + Reverse(s.decoder[c]),
       decoder := s.decoder[c := []],
       regs := s.regs[c := map[]],
       writeReady := s.writeReady[c := false],
       mustIssue := s.mustIssue[c := false])
  }

  // processor_t::flush_pipeline_simple
  function FlushPipeline(s: State, c: nat): (r: State)
    requires Wf(s) && c < |s.decoder|
    ensures Wf(r) && r.rob == s.rob && r.insts == s.insts
  {
    Forgotten(SquashQueues(s, c, 0), c)
  }

  // reorder_buffer_t::flush
  function Flush(s: State, c: nat): (r: State)
    requires Wf(s) && c < |s.decoder|
    ensures Wf(r)
  {
    var t := FlushPipeline(s, c);
    t.(supplier := t.supplier + Squashed(s.rob, s.insts, c, 0),
       rob := Keep(s.rob, s.insts, c, 0))
  }

  function IndexOf(q: seq<nat>, h: nat): (i: nat)
    requires h in q
    ensures i < |q| && q[i] == h && h !in q[..i]
  {
    if q[0] == h then 0 else IndexOf(q[1..], h) + 1
  }

  // The part of the state the loop of reorder_buffer_t::flush_on_write_back
  // works on.
  datatype Behind = Behind(insts: seq<Inst>, supplier: seq<nat>, rob: seq<nat>)

  ghost predicate BehindWf(b: Behind, cpus: nat) {
    InstsWf(b.insts, cpus) && AllBelow(b.supplier, |b.insts|) && AllBelow(b.rob, |b.insts|)
  }

  // rb entry i: flush_on_write_back, list_inst_supplier.add_end, list.del
  function SquashEntry(b: Behind, i: nat, cpus: nat): (r: Behind)
    requires BehindWf(b, cpus) && i < |b.rob|
    ensures BehindWf(r, cpus) && SameShape(b.insts, r.insts)
  {
    Behind(UnlinkFrom(b.insts, b.rob[i], 0, cpus), b.supplier + [b.rob[i]], b.rob[..i] + b.rob[i + 1..])
  }

  function SquashBehind(b: Behind, i: nat, c: nat, cpus: nat): (r: Behind)
    requires BehindWf(b, cpus) && i <= |b.rob|
    ensures BehindWf(r, cpus) && SameShape(b.insts, r.insts)
    decreases |b.rob| - i
  {
    if i == |b.rob| then b
    else if b.insts[b.rob[i]].cpu == c then SquashBehind(SquashEntry(b, i, cpus), i, c, cpus)
    else SquashBehind(b, i + 1, c, cpus)
  }

  // processor_t::flush_pipeline_on_wb: everything but the reorder buffer
  function SquashYounger(s: State, h: nat): (r: State)
    requires Wf(s) && h < |s.insts|
    ensures Wf(r) && r.rob == s.rob
  {
    var x := s.insts[h];
    var t := SquashQueues(s, x.cpu, x.id + 1);
    var drop := x.status != Decoding;
    t.(supplier := if drop then s.supplier + Reverse(s.decoder[x.cpu]) else s.supplier,
       decoder := if drop then s.decoder[x.cpu := []] else s.decoder,
       regs := s.regs[x.cpu := DropRegs(s.regs[x.cpu], s.insts, x.id + 1)],
       insts := s.insts[h := x.(foresight := true)])
  }

  // reorder_buffer_t::flush_on_write_back
  function PartialFlush(s: State, h: nat): (r: State)
    requires Wf(s) && h < |s.insts|
    ensures Wf(r)
  {
    var t := SquashYounger(s, h);
    if h in s.rob then
      var b := SquashBehind(Behind(t.insts, t.supplier, t.rob), IndexOf(s.rob, h) + 1, s.insts[h].cpu, |s.decoder|);
      t.(insts := b.insts, supplier := b.supplier, rob := b.rob)
    else t
  }

  // ---- commit ----

  // processor_t::arrived_to_commit and the queues' reactions
  function Arrived(s: State, h: nat): (r: State)
    requires Wf(s) && h < |s.insts|
    ensures Wf(r)
  {
    var x := s.insts[h];
    if x.kind == Store then s.(writeReady := s.writeReady[x.cpu := true])
    else if QueueOf(x.kind) == IoQueue then s.(mustIssue := s.mustIssue[x.cpu := true])
    else s
  }

  // The deadlock check at the start of reorder_buffer_t::commit.
  predicate Deadlocked(s: State)
    requires Wf(s)
  {
    s.rob != [] && s.insts[s.rob[0]].status == WaitDep
  }

  predicate FlushesAtCommit(x: Inst) {
    x.serial || !x.foresight
  }

  function Commit(s: State): (r: State)
    requires Wf(s)
    ensures Wf(r)
    decreases |s.rob|
  {
    if s.rob == [] then s
    else
      var h := s.rob[0];
      var x := s.insts[h];
      var t := s.(trace := s.trace + [Committed(x.cpu, x.id)]);
      if x.status == Ready then
        if FlushesAtCommit(x) then Flush(t, x.cpu)
        else Commit(t.(rob := s.rob[1..], supplier := s.supplier + [h]))
      else if x.status == DepReady then Arrived(s, h)
      else s
  }
}
