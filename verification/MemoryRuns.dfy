// Every state the kernel's memory can reach.
module MemoryRuns {
  import opened MemoryState
  import opened MemoryTree
  import opened MemoryPages
  import opened MemoryRoom
  import opened MemoryProcess
  import opened MemoryFork
  import opened MemoryBytes
  import opened MemoryCopy

  // The memory and the root table of each live process.
  datatype Kernel = Kernel(mem: Memory, roots: map<nat, nat>)

  datatype Step =
    | NewProcess(pid: nat)
    | MapOne(pid: nat, page: nat, flags: nat)
    | MapRange(pid: nat, from: nat, to: nat, flags: nat)
    | Fork(child: nat, parent: nat)
    | Release(pid: nat)
    | CopyTo(pid: nat, va: nat, data: seq<byte>)

  // Process numbers start at 2 and are not reused while a process lives.
  ghost predicate Enabled(k: Kernel, s: Step) {
    match s
    case NewProcess(pid) => pid >= FIRST_PID && pid !in k.roots
    case MapOne(pid, page, flags) => pid in k.roots && page < PAGES
    case MapRange(pid, from, to, flags) => pid in k.roots && to < USER_LIMIT
    case Fork(child, parent) =>
      child in k.roots && parent in k.roots && child != parent && Wf(k.mem) && Unmapped(k.mem, k.roots[child], 0, PAGES)
    case Release(pid) => pid in k.roots
    case CopyTo(pid, va, data) => pid in k.roots && va + |data| <= USER_LIMIT
  }

  // The kernel stops when an assertion fails.
  ghost function Next(k: Kernel, s: Step): Outcome<Kernel>
    requires MemoryOk(k.mem, k.roots) && Enabled(k, s)
  {
    match s
    case NewProcess(pid) =>
      var a :- NewTable(k.mem, pid);
      Done(Kernel(a, k.roots[pid := a.last]))
    case MapOne(pid, page, flags) =>
      var a :- CreatePage(k.mem, pid, k.roots[pid], page * PAGE_SIZE, flags);
      Done(k.(mem := a))
    case MapRange(pid, from, to, flags) =>
      var a :- CreatePages(k.mem, pid, k.roots[pid], from, to, flags);
      Done(k.(mem := a))
    case Fork(child, parent) =>
      var a :- CopySpace(k.mem, child, k.roots[child], parent, 0);
      Done(k.(mem := a))
    case Release(pid) => Done(Kernel(FreeProcess(k.mem, pid), k.roots - {pid}))
    case CopyTo(pid, va, data) => Done(k.(mem := StoreEach(k.mem, k.roots, pid, va, data).mem))
  }

  // After boot the kernel owns the first frames, all others are free, and
  // allocation starts behind the kernel's last one.
  ghost predicate Booted(k: Kernel) {
    && Wf(k.mem) && k.roots == map[]
    && forall f :: 0 <= f < |k.mem.frames| ==> k.mem.frames[f].pid == if f <= k.mem.last then 0 else FREE
  }

  lemma BootedOk(k: Kernel)
    requires Booted(k)
    ensures MemoryOk(k.mem, k.roots)
  {
    assert Inv(k.mem, Tree(map[], map[]), k.roots);
  }

  lemma StepKeepsOk(k: Kernel, s: Step)
    requires MemoryOk(k.mem, k.roots) && Enabled(k, s) && Next(k, s).Done?
    ensures MemoryOk(Next(k, s).value.mem, Next(k, s).value.roots)
  {
    hide Inv, NewTable, CreatePage, CreatePages, CopySpace, FreeProcess, PageByPage, Walk;
    match s
    case NewProcess(pid) => NewTableKeepsOk(k.mem, k.roots, pid, 0, 0);
    case MapOne(pid, page, flags) => CreatePageMapsOne(k.mem, k.roots, pid, page, flags, pid, 0);
    case MapRange(pid, from, to, flags) =>
      CreatePagesIsPageByPage(k.mem, k.roots, pid, from, to, flags);
      PageByPageMapsRange(k.mem, k.roots, pid, from / PAGE_SIZE, to / PAGE_SIZE + 1, flags, pid, 0);
    case Fork(child, parent) => ForkCopiesSpace(k.mem, k.roots, child, parent, 0, parent);
    case Release(pid) => FreeProcessReleasesAll(k.mem, k.roots, pid, pid, 0);
    case CopyTo(pid, va, data) =>
  }

  // The steps lead from k to r.
  ghost predicate RunTo(k: Kernel, steps: seq<Step>, r: Kernel)
    requires MemoryOk(k.mem, k.roots)
    decreases |steps|
  {
    if steps == [] then r == k
    else
      && Enabled(k, steps[0]) && Next(k, steps[0]).Done?
      && (StepKeepsOk(k, steps[0]); RunTo(Next(k, steps[0]).value, steps[1..], r))
  }

  ghost predicate Reachable(r: Kernel) {
    exists k: Kernel, steps: seq<Step> :: Booted(k) && (BootedOk(k); RunTo(k, steps, r))
  }

  lemma {:induction false} RunKeepsOk(k: Kernel, steps: seq<Step>, r: Kernel)
    requires MemoryOk(k.mem, k.roots) && RunTo(k, steps, r)
    ensures MemoryOk(r.mem, r.roots)
    decreases |steps|
  {
    hide Next, Enabled, MemoryOk;
    if steps != [] {
      StepKeepsOk(k, steps[0]);
      RunKeepsOk(Next(k, steps[0]).value, steps[1..], r);
    }
  }

  // In every reachable state, pages of one or of two processes never share a
  // frame, and no page of a process lies in a table or in the kernel.
  lemma ReachablePagesAreApart(k: Kernel, pid: nat, q: nat, id: nat, p: nat)
    requires Reachable(k) && q < PAGES && p < PAGES && pid in k.roots && id in k.roots
    ensures
      Wf(k.mem) && var f := Walk(k.mem, k.roots[pid], q, 4);
      f.Some? ==>
        && f.value < |k.mem.frames| && k.mem.frames[f.value].pid == pid >= FIRST_PID && !k.mem.frames[f.value].table
        && k.mem.frames[f.value].vaddr == q * PAGE_SIZE
        && (Walk(k.mem, k.roots[id], p, 4) == f ==> id == pid && p == q)
  {
    hide Inv, Walk, RunTo;
    var start: Kernel, steps: seq<Step> :| Booted(start) && (BootedOk(start); RunTo(start, steps, k));
    BootedOk(start);
    RunKeepsOk(start, steps, k);
    PagesHaveOwnFrames(k.mem, k.roots, pid, q, id, p);
    PidOk(k.mem, k.roots, pid);
  }
}
