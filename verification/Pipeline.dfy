// The window as the simulator runs it: lists, pool and units updated in place
// by loops.  Every method does exactly what its step function says.
module Pipeline {
  import opened Common
  import opened PipelineState
  import opened PipelineSteps

  class Window {
    var insts: seq<Inst>
    var supplier: seq<nat>
    var decoder: seq<seq<nat>>
    var rob: seq<nat>
    var generic: seq<nat>
    var ls: seq<nat>
    var io: seq<nat>
    const genericCap: nat
    const lsCap: nat
    const ioCap: nat
    var units: seq<Unit>
    var response: seq<nat>
    var regs: seq<map<nat, nat>>
    var nextId: seq<nat>
    var writeReady: seq<bool>
    var mustIssue: seq<bool>
    ghost var trace: seq<Event>

    ghost function View(): (s: State)
      reads this
    {
      State(insts, supplier, decoder, rob, generic, ls, io, genericCap, lsCap, ioCap, units, response, regs,
        nextId, writeReady, mustIssue, trace)
    }

    ghost predicate Valid()
      reads this
    {
      Wf(View())
    }

    // reorder_buffer_t::get_inst_from_supply and rs_instruction_t::reset
    method Allocate(c: nat)
      requires Valid() && c < |decoder|
      modifies this
      ensures Valid() && View() == Alloc(old(View()), c)
    {
      if supplier != [] {
        var h := supplier[0];
        supplier := supplier[1..];
        insts := insts[h := Fresh(c, nextId[c])];
        nextId := nextId[c := nextId[c] + 1];
        decoder := decoder[c := decoder[c] + [h]];
      }
    }

    method MakeDep(dest: nat, src: nat)
      requires Valid() && dest < |insts| && src < |insts| && dest != src
      modifies this`insts
      ensures Valid() && View() == old(View()).(insts := CreateDep(old(insts), dest, src))
    {
      var d, s := insts[dest], insts[src];
      insts := insts[dest := d.(depIn := d.depIn + [Link(Some(src), |s.depOut|)])];
      insts := insts[src := s.(depOut := s.depOut + [Link(Some(dest), |d.depIn|)])];
    }

    // processor_t::dispatch
    method DispatchNext(c: nat) returns (ok: bool)
      requires Valid() && c < |decoder| && decoder[c] != []
      modifies this
      ensures Valid() && View() == Dispatch(old(View()), c)
      ensures ok <==> !QueueFull(old(View()), QueueOf(old(insts[decoder[c][0]].kind)))
    {
      var h := decoder[c][0];
      ok := Reserve(h);
      if ok {
        decoder := decoder[c := decoder[c][1..]];
        rob := rob + [h];
      }
    }

    // The queue of its kind takes h, unless it is full.
    method Reserve(h: nat) returns (ok: bool)
      requires Valid() && h < |insts|
      modifies this`insts, this`generic, this`ls, this`io
      ensures Valid() && (ok <==> !QueueFull(old(View()), QueueOf(old(insts)[h].kind)))
      ensures
        var x := old(insts)[h];
        var q := QueueOf(x.kind);
        var st := if q == NoQueue then Ready else if x.resolved == |x.depIn| then DepReady else WaitDep;
        View() == if !ok then old(View()) else old(View()).(
          insts := old(insts)[h := x.(status := st)],
          generic := if q == GenericQueue then old(generic) + [h] else old(generic),
          ls := if q == LoadStoreQueue then old(ls) + [h] else old(ls),
          io := if q == IoQueue then old(io) + [h] else old(io))
    {
      var x := insts[h];
      var st := if x.resolved == |x.depIn| then DepReady else WaitDep;
      match QueueOf(x.kind) {
        case LoadStoreQueue =>
          if |ls| >= lsCap { return false; }
          ls := ls + [h];
        case IoQueue =>
          if |io| >= ioCap { return false; }
          io := io + [h];
        case GenericQueue =>
          if |generic| >= genericCap { return false; }
          generic := generic + [h];
        case NoQueue =>
          st := Ready;
      }
      insts := insts[h := x.(status := st)];
      ok := true;
    }

    // functional_units_t::issue
    method Issue(h: nat) returns (ok: bool)
      requires Valid() && h < |insts|
      modifies this`units
      ensures Valid() && (ok <==> FreeUnit(old(units), insts[h].kind).Some?)
      ensures ok ==> var u := FreeUnit(old(units), insts[h].kind).value;
        units == old(units)[u := old(units)[u].(busy := Some(h), cycles := 0)]
      ensures !ok ==> units == old(units)
    {
      var k, u := insts[h].kind, 0;
      ok := false;
      while u < |units|
        invariant u <= |units| && units == old(units)
        invariant FreeUnit(units, k) == Shifted(FreeUnit(units[u..], k), u)
      {
        FreeUnitStep(units[u..], k);
        assert units[u..][1..] == units[u + 1..];
        if units[u].busy == None && k in units[u].kinds {
          units := units[u := units[u].(busy := Some(h), cycles := 0)];
          ok := true;
          return;
        }
        u := u + 1;
      }
    }

    // Marks h as started; the event is recorded.
    method MarkExecuting(h: nat)
      requires Valid() && h < |insts|
      modifies this`insts, this`trace
      ensures Valid()
      ensures insts == old(insts)[h := old(insts)[h].(status := Executing)]
      ensures trace == old(trace) + [Issued(old(insts)[h].cpu, old(insts)[h].id, old(insts)[h].kind)]
    {
      trace := trace + [Issued(insts[h].cpu, insts[h].id, insts[h].kind)];
      insts := insts[h := insts[h].(status := Executing)];
    }

    // Issues h and records it, if a unit is free.
    method TryStart(h: nat) returns (ok: bool)
      requires Valid() && h < |insts|
      modifies this`units, this`insts, this`trace
      ensures Valid() && (ok <==> FreeUnit(old(units), old(insts)[h].kind).Some?)
      ensures ok ==> View() == Start(old(View()), h, FreeUnit(old(units), old(insts)[h].kind).value)
      ensures !ok ==> View() == old(View())
    {
      hide FreeUnit;
      ok := Issue(h);
      if ok { MarkExecuting(h); }
    }

    // One entry of the generic queue.
    method SupplyGenericEntry(i: nat)
      requires Valid() && i < |generic|
      modifies this
      ensures Valid() && generic == old(generic)
      ensures SupplyGeneric(old(View()), i) == SupplyGeneric(View(), i + 1)
    {
      var h := generic[i];
      if insts[h].status == DepReady {
        var _ := TryStart(h);
      }
    }

    method SupplyGenericQueue()
      requires Valid()
      modifies this
      ensures Valid() && View() == SupplyGeneric(old(View()), 0)
    {
      var i := 0;
      while i < |generic|
        invariant Valid() && i <= |generic|
        invariant SupplyGeneric(View(), i) == SupplyGeneric(old(View()), 0)
      {
        SupplyGenericEntry(i);
        i := i + 1;
      }
    }

    // One entry of the load/store queue; stop is set when no unit was free.
    method SupplyLoadStore(i: nat) returns (stop: bool)
      requires Valid() && i < |ls|
      modifies this
      ensures Valid() && ls == old(ls)
      ensures SupplyLs(old(View()), i) == if stop then View() else SupplyLs(View(), i + 1)
    {
      var h := ls[i];
      var c := insts[h].cpu;
      stop := false;
      if insts[h].kind == Store && !writeReady[c] { return; }
      if insts[h].status == DepReady {
        var ok := TryStart(h);
        if !ok { return true; }
        writeReady := writeReady[c := false];
      }
    }

    method SupplyLoadStoreQueue()
      requires Valid()
      modifies this
      ensures Valid() && View() == SupplyLs(old(View()), 0)
    {
      var i := 0;
      while i < |ls|
        invariant Valid() && i <= |ls|
        invariant SupplyLs(View(), i) == SupplyLs(old(View()), 0)
      {
        var stop := SupplyLoadStore(i);
        if stop { return; }
        i := i + 1;
      }
    }

    method SupplyPortQueue()
      requires Valid()
      modifies this
      ensures Valid() && View() == SupplyIo(old(View()), 0)
    {
      var i := 0;
      while i < |io|
        invariant Valid() && i <= |io|
        invariant SupplyIo(View(), i) == SupplyIo(old(View()), 0)
      {
        var h := io[i];
        var c := insts[h].cpu;
        if mustIssue[c] {
          var ok := TryStart(h);
          if ok {
            mustIssue := mustIssue[c := false];
          }
          return;
        }
        i := i + 1;
      }
    }

    // One unit.
    method ExecuteUnit(u: nat)
      requires Valid() && u < |units|
      modifies this`units, this`response
      ensures Valid() && |units| == |old(units)|
      ensures Exec(View(), u + 1) == Exec(old(View()), u)
    {
      if units[u].busy.Some? {
        var h, n := units[u].busy.value, units[u].cycles;
        assert units[u := units[u].(cycles := n + 1)][u := units[u].(busy := None, cycles := n + 1)]
            == units[u := units[u].(busy := None, cycles := n + 1)];
        units := units[u := units[u].(cycles := n + 1)];
        if n >= insts[h].latency {
          response := response + [h];
          units := units[u := units[u].(busy := None)];
        }
      }
    }

    method Execute()
      requires Valid()
      modifies this
      ensures Valid() && View() == Exec(old(View()), 0)
    {
      var u := 0;
      while u < |units|
        invariant Valid() && u <= |units|
        invariant Exec(View(), u) == Exec(old(View()), 0)
      {
        hide Exec;
        ExecuteUnit(u);
        u := u + 1;
      }
    }

    // One slot of dep_out.
    method ResolveSlot(h: nat, i: nat)
      requires InstsWf(insts, |decoder|) && h < |insts| && i < |insts[h].depOut|
      modifies this`insts
      ensures InstsWf(insts, |decoder|) && insts == ResolveOut(old(insts), h, i, |decoder|)
    {
      if insts[h].depOut[i].peer.Some? {
        var d, pos := insts[h].depOut[i].peer.value, insts[h].depOut[i].back;
        insts := insts[d := insts[d].(depIn := ClearSlot(insts[d].depIn, pos), resolved := insts[d].resolved + 1)];
        if insts[d].resolved >= |insts[d].depIn| {
          insts := insts[d := insts[d].(status := DepReady)];
        }
        insts := insts[h := insts[h].(depOut := ClearSlot(insts[h].depOut, i))];
        assert insts == ResolveOut(old(insts), h, i, |decoder|);
      }
    }

    method ResolveAll(h: nat)
      requires InstsWf(insts, |decoder|) && h < |insts|
      modifies this`insts
      ensures InstsWf(insts, |decoder|) && insts == ResolveFrom(old(insts), h, 0, |decoder|)
    {
      hide ResolveOut, InstsWf;
      var i := 0;
      ghost var r := ResolveFrom(insts, h, 0, |decoder|);
      while i < |insts[h].depOut|
        invariant |insts| == |old(insts)| && i <= |insts[h].depOut|
        invariant InstsWf(insts, |decoder|)
        invariant ResolveFrom(insts, h, i, |decoder|) == r
        decreases |insts[h].depOut| - i
      {
        ResolveSlot(h, i);
        i := i + 1;
      }
    }

    // rs_instruction_t::write_back and the removal from the queue
    method WriteBackInst(h: nat)
      requires Valid() && h in response
      modifies this
      ensures Valid() && View() == WriteBack(old(View()), h)
    {
      hide ResolveFrom, Without, ForgetProducer;
      var c := insts[h].cpu;
      insts := insts[h := insts[h].(status := Ready)];
      ResolveAll(h);
      ForgetRegisters(c, h);
      generic := Without(generic, h);
      ls := Without(ls, h);
      io := Without(io, h);
      response := Without(response, h);
      assert View() == WriteBack(old(View()), h);
    }

    // The loop over out_deps_regs.
    method ForgetRegisters(c: nat, h: nat)
      requires c < |regs| && h < |insts|
      modifies this`regs
      ensures regs == old(regs)[c := ForgetProducer(old(regs)[c], h, insts[h].outRegs)]
    {
      var out := insts[h].outRegs;
      var i := 0;
      assert ForgetProducer(regs[c], h, out[..0]) == regs[c];
      while i < |out|
        invariant i <= |out| && |regs| == |old(regs)|
        invariant regs == old(regs)[c := ForgetProducer(old(regs)[c], h, out[..i])]
      {
        ghost var bank := regs[c];
        if out[i] in regs[c] && regs[c][out[i]] == h {
          regs := regs[c := regs[c] - {out[i]}];
        }
        assert out[..i + 1] == out[..i] + [out[i]];
        assert regs[c] == ForgetProducer(old(regs)[c], h, out[..i + 1]);
        i := i + 1;
      }
      assert out[..i] == out;
      assert old(regs)[c := ForgetProducer(old(regs)[c], h, out)] == regs;
    }

    // One slot of dep_in.
    method UnlinkSlot(h: nat, i: nat)
      requires InstsWf(insts, |decoder|) && h < |insts| && i < |insts[h].depIn|
      modifies this`insts
      ensures InstsWf(insts, |decoder|) && insts == UnlinkIn(old(insts), h, i, |decoder|)
    {
      if insts[h].depIn[i].peer.Some? {
        var g, pos := insts[h].depIn[i].peer.value, insts[h].depIn[i].back;
        insts := insts[g := insts[g].(depOut := ClearSlot(insts[g].depOut, pos))];
        insts := insts[h := insts[h].(depIn := ClearSlot(insts[h].depIn, i))];
        assert insts == UnlinkIn(old(insts), h, i, |decoder|);
      }
    }

    // rs_instruction_t::flush_on_write_back
    method Unlink(h: nat)
      requires InstsWf(insts, |decoder|) && h < |insts|
      modifies this`insts
      ensures InstsWf(insts, |decoder|) && insts == UnlinkFrom(old(insts), h, 0, |decoder|)
    {
      hide UnlinkIn, InstsWf;
      var i := 0;
      ghost var r := UnlinkFrom(insts, h, 0, |decoder|);
      while i < |insts[h].depIn|
        invariant |insts| == |old(insts)| && i <= |insts[h].depIn|
        invariant InstsWf(insts, |decoder|)
        invariant UnlinkFrom(insts, h, i, |decoder|) == r
        decreases |insts[h].depIn| - i
      {
        UnlinkSlot(h, i);
        i := i + 1;
      }
    }

    // ---- flushes ----

    // rs_policy_just_one_t::flush and flush_on_write_back on one queue
    method FlushList(q: seq<nat>, c: nat, from: nat) returns (kept: seq<nat>, gone: seq<nat>)
      requires AllBelow(q, |insts|)
      ensures kept == Keep(q, insts, c, from) && gone == Squashed(q, insts, c, from)
    {
      kept, gone := [], [];
      var i := 0;
      while i < |q|
        invariant i <= |q|
        invariant kept + Keep(q[i..], insts, c, from) == Keep(q, insts, c, from)
        invariant gone + Squashed(q[i..], insts, c, from) == Squashed(q, insts, c, from)
      {
        hide Keep, Squashed;
        FilterStep(q[i..], insts, c, from, kept, gone);
        assert q[i..][1..] == q[i + 1..] && q[i..][0] == q[i];
        if Hit(insts[q[i]], c, from) { gone := gone + [q[i]]; } else { kept := kept + [q[i]]; }
        i := i + 1;
      }
      assert q[i..] == [];
    }

    // functional_units_t::flush and flush_on_write_back
    method FlushUnits(c: nat, from: nat)
      requires UnitsInRange(units, |insts|)
      modifies this`units
      ensures units == KeepUnits(old(units), insts, c, from)
    {
      var u := 0;
      while u < |units|
        invariant u <= |units| == |old(units)|
        invariant forall v :: 0 <= v < u ==> units[v] == KeepUnits(old(units), insts, c, from)[v]
        invariant forall v :: u <= v < |units| ==> units[v] == old(units)[v]
      {
        if units[u].busy.Some? && Hit(insts[units[u].busy.value], c, from) {
          units := units[u := units[u].(busy := None)];
        }
        u := u + 1;
      }
    }

    method FlushQueues(c: nat, from: nat)
      requires Valid()
      modifies this
      ensures Valid() && View() == SquashQueues(old(View()), c, from)
    {
      var gone;
      generic, gone := FlushList(generic, c, from);
      ls, gone := FlushList(ls, c, from);
      io, gone := FlushList(io, c, from);
      FlushUnits(c, from);
      assert View() == SquashQueues(old(View()), c, from);
    }

    // decoder_t::get_buffered_rs and the loop that returns its entries
    method ReturnDecoder(c: nat)
      requires c < |decoder|
      modifies this`supplier, this`decoder
      ensures supplier == old(supplier) + Reverse(old(decoder)[c]) && decoder == old(decoder)[c := []]
    {
      var q := decoder[c];
      var i := |q|;
      assert q[..i] == q;
      while i > 0
        invariant 0 <= i <= |q| && decoder == old(decoder)
        invariant supplier + Reverse(q[..i]) == old(supplier) + Reverse(q)
      {
        i := i - 1;
        assert q[..i + 1] == q[..i] + [q[i]];
        ReverseSnoc(q[..i], q[i]);
        assert supplier + ([q[i]] + Reverse(q[..i])) == supplier + [q[i]] + Reverse(q[..i]);
        supplier := supplier + [q[i]];
      }
      decoder := decoder[c := []];
    }

    // processor_t::flush_pipeline_simple
    method FlushPipelineOf(c: nat)
      requires Valid() && c < |decoder|
      modifies this
      ensures Valid() && View() == FlushPipeline(old(View()), c)
    {
      FlushQueues(c, 0);
      ForgetCpu(c);
    }

    method ForgetCpu(c: nat)
      requires Valid() && c < |decoder|
      modifies this
      ensures View() == Forgotten(old(View()), c)
    {
      writeReady := writeReady[c := false];
      mustIssue := mustIssue[c := false];
      ReturnDecoder(c);
      regs := regs[c := map[]];
    }

    // reorder_buffer_t::flush
    method FlushCpu(c: nat)
      requires Valid() && c < |decoder|
      modifies this
      ensures Valid() && View() == Flush(old(View()), c)
    {
      FlushPipelineOf(c);
      var kept, gone := FlushList(rob, c, 0);
      supplier := supplier + gone;
      rob := kept;
      assert View() == Flush(old(View()), c);
    }

    // The loop of reorder_buffer_t::flush_on_write_back.
    method FlushBehind(p: nat, c: nat)
      requires BehindWf(Behind(insts, supplier, rob), |decoder|) && p <= |rob|
      modifies this`insts, this`supplier, this`rob
      ensures Behind(insts, supplier, rob) == SquashBehind(old(Behind(insts, supplier, rob)), p, c, |decoder|)
    {
      var i: nat := p;
      while i < |rob|
        invariant i <= |rob| && BehindWf(Behind(insts, supplier, rob), |decoder|)
        invariant SquashBehind(Behind(insts, supplier, rob), i, c, |decoder|)
               == SquashBehind(old(Behind(insts, supplier, rob)), p, c, |decoder|)
        decreases |rob| - i
      {
        var h := rob[i];
        if insts[h].cpu == c {
          ghost var before := Behind(insts, supplier, rob);
          Unlink(h);
          supplier := supplier + [h];
          rob := rob[..i] + rob[i + 1..];
          assert Behind(insts, supplier, rob) == SquashEntry(before, i, |decoder|);
        } else {
          i := i + 1;
        }
      }
    }

    // processor_t::flush_pipeline_on_wb
    method FlushYounger(h: nat)
      requires Valid() && h < |insts|
      modifies this
      ensures Valid() && View() == SquashYounger(old(View()), h)
    {
      hide DropRegs, Keep, Reverse;
      var c, id := insts[h].cpu, insts[h].id;
      FlushQueues(c, id + 1);
      if insts[h].status != Decoding {
        ReturnDecoder(c);
      }
      regs := regs[c := DropRegs(regs[c], insts, id + 1)];
      insts := insts[h := insts[h].(foresight := true)];
      assert View() == SquashYounger(old(View()), h);
    }

    // reorder_buffer_t::flush_on_write_back
    method FlushOnWriteBack(h: nat)
      requires Valid() && h < |insts|
      modifies this
      ensures Valid() && View() == PartialFlush(old(View()), h)
    {
      hide SquashBehind, SquashYounger, InstsWf, AllBelow, UnitsInRange;
      YoungerDecoders(View(), h);
      var c := insts[h].cpu;
      FlushYounger(h);
      if h in rob {
        FlushBehind(IndexOf(rob, h) + 1, c);
      }
      assert View() == PartialFlush(old(View()), h);
    }

    // ---- commit ----

    method ArrivedToCommit(h: nat)
      requires Valid() && h < |insts|
      modifies this
      ensures Valid() && View() == Arrived(old(View()), h)
    {
      var c := insts[h].cpu;
      if insts[h].kind == Store {
        writeReady := writeReady[c := true];
      } else if QueueOf(insts[h].kind) == IoQueue {
        mustIssue := mustIssue[c := true];
      }
    }

    // reorder_buffer_t::commit
    method CommitAll()
      requires Valid() && !Deadlocked(View())
      modifies this
      ensures Valid() && View() == Commit(old(View()))
    {
      while rob != []
        invariant Valid() && Commit(View()) == Commit(old(View()))
        decreases |rob|
      {
        var h := rob[0];
        var c := insts[h].cpu;
        if insts[h].status == Ready {
          trace := trace + [Committed(c, insts[h].id)];
          if FlushesAtCommit(insts[h]) {
            FlushCpu(c);
            return;
          }
          rob := rob[1..];
          supplier := supplier + [h];
        } else {
          if insts[h].status == DepReady { ArrivedToCommit(h); }
          return;
        }
      }
    }
  }

  // One entry moves from the rest of the list to what was kept or dropped.
  lemma FilterStep(q: seq<nat>, insts: seq<Inst>, c: nat, from: nat, kept: seq<nat>, gone: seq<nat>)
    requires AllBelow(q, |insts|) && q != []
    ensures
      var hit := Hit(insts[q[0]], c, from);
      && kept + Keep(q, insts, c, from) == (if hit then kept else kept + [q[0]]) + Keep(q[1..], insts, c, from)
      && gone + Squashed(q, insts, c, from) == (if hit then gone + [q[0]] else gone) + Squashed(q[1..], insts, c, from)
  {
    assert kept + ([q[0]] + Keep(q[1..], insts, c, from)) == kept + [q[0]] + Keep(q[1..], insts, c, from);
    assert gone + ([q[0]] + Squashed(q[1..], insts, c, from)) == gone + [q[0]] + Squashed(q[1..], insts, c, from);
  }

  lemma YoungerDecoders(s: State, h: nat)
    requires Wf(s) && h < |s.insts|
    ensures |SquashYounger(s, h).decoder| == |s.decoder|
  {
  }

  lemma ReverseSnoc(q: seq<nat>, x: nat)
    ensures Reverse(q + [x]) == [x] + Reverse(q)
  {
    if q == [] {
      assert q + [x] == [x];
    } else {
      assert (q + [x])[1..] == q[1..] + [x];
      ReverseSnoc(q[1..], x);
    }
  }

  function Shifted(r: Option<nat>, u: nat): Option<nat> {
    if r.Some? then Some(r.value + u) else None
  }

  lemma FreeUnitStep(units: seq<Unit>, k: Kind)
    requires units != []
    ensures FreeUnit(units, k) ==
      if units[0].busy == None && k in units[0].kinds then Some(0) else Shifted(FreeUnit(units[1..], k), 1)
  {
  }
}
