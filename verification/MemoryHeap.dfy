// The heap of a process: syscall_brk.
module MemoryHeap {
  import opened Common
  import opened MemoryState
  import opened MemoryTree
  import opened MemoryCreate
  import opened MemoryPages
  import opened MemoryProcess
  import opened MemoryRoom

  // The last address of the heap, and the last one of its mapped pages.
  datatype Heap = Heap(end: nat, mapped: nat)

  datatype BrkResult = BrkResult(mem: Memory, heap: Heap, ret: nat)

  // x | 0xFFF
  function PageEnd(x: nat): nat {
    x / PAGE_SIZE * PAGE_SIZE + (PAGE_SIZE - 1)
  }

  // syscall_brk, for addresses whose differences fit a signed 64-bit integer
  function Brk(m: Memory, pid: nat, root: nat, heap: Heap, newBrk: nat): (r: Outcome<BrkResult>)
    requires Wf(m)
    ensures r.Done? ==> Wf(r.value.mem)
  {
    var incr := newBrk - heap.end - 1;
    if newBrk == 0 then Done(BrkResult(m, heap, heap.end + 1))
    else if incr > 0 then
      if heap.mapped - heap.end < incr then
        var end := PageEnd(heap.end + incr);
        var a :- CreatePages(m, pid, root, heap.mapped + 1, end, FLAG_WRITE);
        Done(BrkResult(a, Heap(heap.end + incr, end), heap.end + incr + 1))
      else Done(BrkResult(m, heap.(end := heap.end + incr), heap.end + incr + 1))
    else Done(BrkResult(m, heap.(end := heap.end + incr), heap.end + incr + 1))
  }

  // Between the page the heap started with and the stack, exactly the pages
  // up to heap_allocated are mapped.
  ghost predicate HeapOk(m: Memory, roots: map<nat, nat>, pid: nat, heap: Heap, first: nat, stack: nat) {
    && MemoryOk(m, roots) && pid in roots && stack <= PAGES
    && heap.end <= heap.mapped && heap.mapped == PageEnd(heap.mapped)
    && first <= heap.mapped / PAGE_SIZE + 1 <= stack
    && (forall q :: first <= q <= heap.mapped / PAGE_SIZE ==> Walk(m, roots[pid], q, 4).Some?)
    && Unmapped(m, roots[pid], heap.mapped / PAGE_SIZE + 1, stack)
  }

  // A request for a break below the stack.
  ghost predicate BelowStack(newBrk: nat, stack: nat) {
    newBrk > 0 ==> (newBrk - 1) / PAGE_SIZE < stack
  }

  // The pages up to the new break that are not mapped yet.
  ghost function PagesNeeded(heap: Heap, newBrk: nat): nat {
    if newBrk == 0 || (newBrk - 1) / PAGE_SIZE <= heap.mapped / PAGE_SIZE then 0
    else (newBrk - 1) / PAGE_SIZE - heap.mapped / PAGE_SIZE
  }

  lemma GrowsByPages(m: Memory, roots: map<nat, nat>, pid: nat, heap: Heap, first: nat, stack: nat, newBrk: nat)
    requires HeapOk(m, roots, pid, heap, first, stack) && BelowStack(newBrk, stack)
    requires newBrk > 0 && heap.mapped - heap.end < newBrk - heap.end - 1
    ensures
      var from, to := heap.mapped / PAGE_SIZE + 1, (newBrk - 1) / PAGE_SIZE + 1;
      && PagesNeeded(heap, newBrk) == to - from && from <= to <= stack
      && CreatePages(m, pid, roots[pid], heap.mapped + 1, PageEnd(newBrk - 1), FLAG_WRITE)
         == PageByPage(m, pid, roots[pid], from, to, FLAG_WRITE)
  {
    hide PageByPage, CreatePages, Unmapped, Walk, Inv;
    CreatePagesIsPageByPage(m, roots, pid, heap.mapped + 1, PageEnd(newBrk - 1), FLAG_WRITE);
  }

  lemma RangeUnmapped(m: Memory, root: nat, q: nat, end: nat, stack: nat)
    requires Wf(m) && Unmapped(m, root, q, stack) && end <= stack
    ensures Unmapped(m, root, q, end)
  {
  }

  // With four free frames for each page it needs, a request never meets a page
  // that exists; what room there was beyond that is left.
  lemma BrkSucceeds(m: Memory, roots: map<nat, nat>, pid: nat, heap: Heap, first: nat, stack: nat, newBrk: nat, k: nat)
    requires HeapOk(m, roots, pid, heap, first, stack) && BelowStack(newBrk, stack)
    requires Room(m, 4 * PagesNeeded(heap, newBrk) + k)
    ensures Brk(m, pid, roots[pid], heap, newBrk).Done?
    ensures
      var r := Brk(m, pid, roots[pid], heap, newBrk).value;
      Room(r.mem, k) && r.heap.mapped / PAGE_SIZE == heap.mapped / PAGE_SIZE + PagesNeeded(heap, newBrk)
  {
    hide PageByPage, CreatePages, Unmapped, Walk, Inv, Room;
    if newBrk > 0 && heap.mapped - heap.end < newBrk - heap.end - 1 {
      GrowsByPages(m, roots, pid, heap, first, stack, newBrk);
      var from, to := heap.mapped / PAGE_SIZE + 1, (newBrk - 1) / PAGE_SIZE + 1;
      RangeUnmapped(m, roots[pid], from, to, stack);
      PageByPageSucceeds(m, roots, pid, from, to, FLAG_WRITE, k);
      SamePageEnd(newBrk - 1);
    } else {
      assert PagesNeeded(heap, newBrk) == 0;
    }
  }

  // The pages of the heap after it grew.
  lemma GrownHeap(m: Memory, roots: map<nat, nat>, pid: nat, heap: Heap, first: nat, stack: nat, newBrk: nat, q: nat)
    requires HeapOk(m, roots, pid, heap, first, stack) && BelowStack(newBrk, stack)
    requires newBrk > 0 && heap.mapped - heap.end < newBrk - heap.end - 1
    requires CreatePages(m, pid, roots[pid], heap.mapped + 1, PageEnd(newBrk - 1), FLAG_WRITE).Done?
    ensures
      var r := CreatePages(m, pid, roots[pid], heap.mapped + 1, PageEnd(newBrk - 1), FLAG_WRITE).value;
      && MemoryOk(r, roots)
      && (first <= q <= (newBrk - 1) / PAGE_SIZE ==> Walk(r, roots[pid], q, 4).Some?)
      && ((newBrk - 1) / PAGE_SIZE < q < stack ==> Walk(r, roots[pid], q, 4) == None)
  {
    hide PageByPage, CreatePages, Walk, Inv, Preserved;
    GrowsByPages(m, roots, pid, heap, first, stack, newBrk);
    var from, to := heap.mapped / PAGE_SIZE + 1, (newBrk - 1) / PAGE_SIZE + 1;
    PageByPageMapsRange(m, roots, pid, from, to, FLAG_WRITE, pid, if q < PAGES then q else 0);
  }

  lemma SamePageEnd(x: nat)
    ensures PageEnd(PageEnd(x)) == PageEnd(x) && PageEnd(x) / PAGE_SIZE == x / PAGE_SIZE && x <= PageEnd(x)
  {
  }

  // Every request keeps the heap in order, and one for a new break gets it.
  lemma BrkKeepsHeap(m: Memory, roots: map<nat, nat>, pid: nat, heap: Heap, first: nat, stack: nat, newBrk: nat)
    requires HeapOk(m, roots, pid, heap, first, stack) && BelowStack(newBrk, stack)
    requires Brk(m, pid, roots[pid], heap, newBrk).Done?
    ensures
      var r := Brk(m, pid, roots[pid], heap, newBrk).value;
      && HeapOk(r.mem, roots, pid, r.heap, first, stack)
      && r.ret == (if newBrk == 0 then heap.end + 1 else newBrk) && r.ret == r.heap.end + 1
      && r.heap.mapped >= heap.mapped
  {
    hide CreatePages, Walk, Inv;
    var r := Brk(m, pid, roots[pid], heap, newBrk).value;
    if newBrk > 0 && heap.mapped - heap.end < newBrk - heap.end - 1 {
      SamePageEnd(newBrk - 1);
      GrownHeap(m, roots, pid, heap, first, stack, newBrk, 0);
      forall q | first <= q <= r.heap.mapped / PAGE_SIZE
        ensures Walk(r.mem, roots[pid], q, 4).Some?
      {
        GrownHeap(m, roots, pid, heap, first, stack, newBrk, q);
      }
      forall q | r.heap.mapped / PAGE_SIZE + 1 <= q < stack
        ensures Walk(r.mem, roots[pid], q, 4) == None
      {
        GrownHeap(m, roots, pid, heap, first, stack, newBrk, q);
      }
    }
  }

  // The frame of each page of a new range is recorded with its flags.
  lemma {:induction false} RangeFlags(m: Memory, roots: map<nat, nat>, pid: nat, q: nat, end: nat, flags: nat, p: nat)
    requires MemoryOk(m, roots) && pid in roots && q <= p < end <= PAGES
    requires PageByPage(m, pid, roots[pid], q, end, flags).Done?
    ensures
      var r := PageByPage(m, pid, roots[pid], q, end, flags).value;
      var f := Walk(r, roots[pid], p, 4);
      f.Some? && f.value < |r.frames| && r.frames[f.value] == Frame(pid, false, p * PAGE_SIZE, flags)
    decreases end - q
  {
    hide CreatePage, Walk, Inv;
    var a := CreatePage(m, pid, roots[pid], q * PAGE_SIZE, flags).value;
    CreatePageMapsOne(m, roots, pid, q, flags, pid, p);
    if p == q {
      PageByPageMapsRange(a, roots, pid, q + 1, end, flags, pid, p);
      PidOk(m, roots, pid);
    } else {
      RangeFlags(a, roots, pid, q + 1, end, flags, p);
    }
  }

  // The pages a request adds may be written and not executed: their entries in
  // the tables say so.
  ghost predicate WritableData(m: Memory, root: nat, q: nat)
    requires Wf(m)
  {
    var t := Walk(m, root, q, 3);
    && t.Some? && t.value < |m.ram|
    && var e := m.ram[t.value][Index(q, 4)];
    e.present && e.writable && e.noExec
  }

  lemma BrkPagesAreData(m: Memory, roots: map<nat, nat>, pid: nat, heap: Heap, first: nat, stack: nat, newBrk: nat, q: nat)
    requires HeapOk(m, roots, pid, heap, first, stack) && BelowStack(newBrk, stack)
    requires Brk(m, pid, roots[pid], heap, newBrk).Done?
    requires
      var r := Brk(m, pid, roots[pid], heap, newBrk).value;
      heap.mapped / PAGE_SIZE < q <= r.heap.mapped / PAGE_SIZE
    ensures WritableData(Brk(m, pid, roots[pid], heap, newBrk).value.mem, roots[pid], q)
  {
    hide CreatePages, PageByPage, Walk, Inv, Preserved;
    var r := Brk(m, pid, roots[pid], heap, newBrk).value.mem;
    GrowsByPages(m, roots, pid, heap, first, stack, newBrk);
    SamePageEnd(newBrk - 1);
    GrownHeap(m, roots, pid, heap, first, stack, newBrk, q);
    var from, to := heap.mapped / PAGE_SIZE + 1, (newBrk - 1) / PAGE_SIZE + 1;
    RangeFlags(m, roots, pid, from, to, FLAG_WRITE, q);
    PagesHaveTheirRights(r, roots, pid, q);
    EntryPresent(r, roots[pid], q);
  }

  lemma EntryPresent(m: Memory, root: nat, q: nat)
    requires Wf(m) && Walk(m, root, q, 4).Some?
    ensures
      var t := Walk(m, root, q, 3);
      t.Some? && t.value < |m.ram| && m.ram[t.value][Index(q, 4)].present
  {
  }

  // A process's heap depends only on its own translations.
  lemma OthersKeepHeap(m: Memory, roots: map<nat, nat>, r: Memory, more: map<nat, nat>, pid: nat, heap: Heap, first: nat, stack: nat)
    requires HeapOk(m, roots, pid, heap, first, stack) && MemoryOk(r, more) && pid in more
    requires forall q :: 0 <= q < PAGES ==> Walk(r, more[pid], q, 4) == Walk(m, roots[pid], q, 4)
    ensures HeapOk(r, more, pid, heap, first, stack)
  {
    hide Walk, Inv;
  }

  // ---- any number of requests ----

  // What a sequence of requests leaves, and what each of them returned.
  datatype BrkRun = BrkRun(mem: Memory, heap: Heap, rets: seq<nat>)

  function BrkAll(m: Memory, pid: nat, root: nat, heap: Heap, requests: seq<nat>): (r: Outcome<BrkRun>)
    requires Wf(m)
    ensures r.Done? ==> Wf(r.value.mem) && |r.value.rets| == |requests|
    decreases |requests|
  {
    if requests == [] then Done(BrkRun(m, heap, []))
    else
      var a :- Brk(m, pid, root, heap, requests[0]);
      var b :- BrkAll(a.mem, pid, root, a.heap, requests[1..]);
      Done(BrkRun(b.mem, b.heap, [a.ret] + b.rets))
  }

  // Each request that is not zero returns its break, and zero asks for the
  // current one.
  ghost predicate ReturnOk(heap: Heap, requests: seq<nat>, rets: seq<nat>, i: nat)
    requires i < |requests| == |rets|
  {
    rets[i] == if requests[i] > 0 then requests[i] else if i == 0 then heap.end + 1 else rets[i - 1]
  }

  ghost predicate Returned(heap: Heap, requests: seq<nat>, rets: seq<nat>) {
    |rets| == |requests| && forall i: nat :: i < |requests| ==> ReturnOk(heap, requests, rets, i)
  }

  lemma ReturnedCons(heap: Heap, request: nat, ret: nat, after: Heap, requests: seq<nat>, rets: seq<nat>)
    requires ret == (if request == 0 then heap.end + 1 else request) && ret == after.end + 1
    requires Returned(after, requests, rets)
    ensures Returned(heap, [request] + requests, [ret] + rets)
  {
    var q, r := [request] + requests, [ret] + rets;
    forall i: nat | i < |q|
      ensures ReturnOk(heap, q, r, i)
    {
      if i > 0 { assert ReturnOk(after, requests, rets, i - 1); }
    }
  }

  lemma {:induction false} BrkRunsKeepHeap(m: Memory, roots: map<nat, nat>, pid: nat, heap: Heap, first: nat, stack: nat, requests: seq<nat>)
    requires HeapOk(m, roots, pid, heap, first, stack)
    requires forall i :: 0 <= i < |requests| ==> BelowStack(requests[i], stack)
    requires BrkAll(m, pid, roots[pid], heap, requests).Done?
    ensures
      var r := BrkAll(m, pid, roots[pid], heap, requests).value;
      HeapOk(r.mem, roots, pid, r.heap, first, stack) && Returned(heap, requests, r.rets)
    decreases |requests|
  {
    hide Brk, HeapOk, BelowStack;
    HeapWf(m, roots, pid, heap, first, stack);
    if requests != [] {
      hide Returned;
      assert BelowStack(requests[0], stack);
      BrkKeepsHeap(m, roots, pid, heap, first, stack, requests[0]);
      var a := Brk(m, pid, roots[pid], heap, requests[0]).value;
      BrkRunsKeepHeap(a.mem, roots, pid, a.heap, first, stack, requests[1..]);
      ReturnedCons(heap, requests[0], a.ret, a.heap, requests[1..], BrkAll(a.mem, pid, roots[pid], a.heap, requests[1..]).value.rets);
      assert [requests[0]] + requests[1..] == requests;
    }
  }

  // With room for the pages up to the highest break of the run, no request
  // stops the kernel.
  lemma {:induction false} BrkRunsSucceed(m: Memory, roots: map<nat, nat>, pid: nat, heap: Heap, first: nat, stack: nat, requests: seq<nat>, top: nat)
    requires HeapOk(m, roots, pid, heap, first, stack) && BelowStack(top, stack)
    requires forall i :: 0 <= i < |requests| ==> requests[i] <= top
    requires Room(m, 4 * PagesNeeded(heap, top))
    ensures BrkAll(m, pid, roots[pid], heap, requests).Done?
    decreases |requests|
  {
    hide Brk, HeapOk, Room;
    HeapWf(m, roots, pid, heap, first, stack);
    if requests != [] {
      var r0 := requests[0];
      var k := 4 * (PagesNeeded(heap, top) - PagesNeeded(heap, r0));
      BrkSucceeds(m, roots, pid, heap, first, stack, r0, k);
      BrkKeepsHeap(m, roots, pid, heap, first, stack, r0);
      var a := Brk(m, pid, roots[pid], heap, r0).value;
      assert PagesNeeded(a.heap, top) == PagesNeeded(heap, top) - PagesNeeded(heap, r0);
      BrkRunsSucceed(a.mem, roots, pid, a.heap, first, stack, requests[1..], top);
    }
  }

  lemma HeapWf(m: Memory, roots: map<nat, nat>, pid: nat, heap: Heap, first: nat, stack: nat)
    requires HeapOk(m, roots, pid, heap, first, stack)
    ensures Wf(m) && pid in roots
  {
  }
}
