// What one call of memory_create_page changes, when it succeeds, and why the
// batched mapper may walk the upper levels once for each table.
module MemoryPages {
  import opened Common
  import opened MemoryState
  import opened MemoryTree
  import opened MemoryCreate

  // Some forest explains the memory.
  ghost predicate MemoryOk(m: Memory, roots: map<nat, nat>) {
    Wf(m) && exists tree: Tree :: Inv(m, tree, roots)
  }

  // Page q of the process was added, in frame r.last.
  ghost predicate PageAdded(m: Memory, tree: Tree, r: Memory, t: Tree, roots: map<nat, nat>, pid: nat, q: nat, flags: nat) {
    && Wf(m) && Inv(r, t, roots) && Preserved(m, r, pid)
    && Place(pid, 4, q) !in tree.at && Place(pid, 4, q) in t.at && t.at[Place(pid, 4, q)] == r.last
    && (forall p :: p in tree.at ==> p in t.at && t.at[p] == tree.at[p])
    && (forall p :: p in t.at && p !in tree.at ==> p.pid == pid && (p.level < 4 || p == Place(pid, 4, q)))
    && m.frames[r.last].pid == FREE && r.frames[r.last] == Frame(pid, false, q * PAGE_SIZE, flags)
  }

  lemma PageAfterTables(m: Memory, tree: Tree, a: Memory, t: Tree, r: Memory, u: Tree, roots: map<nat, nat>, pid: nat, q: nat, flags: nat)
    requires Wf(m) && Wf(a) && pid >= FIRST_PID
    requires Extends(tree, t, pid) && Preserved(m, a, pid) && Mapped(a, t, r, u, roots, pid, q, flags)
    ensures PageAdded(m, tree, r, u, roots, pid, q, flags)
  {
    hide Links, Owned, Rooted, TreeOk;
    PreservedTwice(m, a, r, pid);
  }

  lemma CreateStep(m: Memory, tree: Tree, roots: map<nat, nat>, pid: nat, q: nat, flags: nat) returns (t: Tree)
    requires Inv(m, tree, roots) && pid in roots && q < PAGES
    requires CreatePage(m, pid, roots[pid], q * PAGE_SIZE, flags).Done?
    ensures PageAdded(m, tree, CreatePage(m, pid, roots[pid], q * PAGE_SIZE, flags).value, t, roots, pid, q, flags)
  {
    hide Links, Owned, Rooted, TreeOk, Extends, Preserved, Mapped, PageAdded, Reach, MapPage, Node;
    OwnerOk(m, tree, roots, pid);
    var a := Reach(m, pid, roots[pid], q).value;
    var u := ReachStep(m, tree, roots, pid, q);
    t := MapStep(a.mem, u, roots, pid, q, a.table, flags);
    PageAfterTables(m, tree, a.mem, u, MapPage(a.mem, pid, a.table, q, flags).value, t, roots, pid, q, flags);
  }

  lemma WalkToPage(m: Memory, tree: Tree, roots: map<nat, nat>, pid: nat, q: nat)
    requires Inv(m, tree, roots) && pid in roots && q < PAGES
    ensures Walk(m, roots[pid], q, 4) == if Place(pid, 4, q) in tree.at then Some(tree.at[Place(pid, 4, q)]) else None
  {
    WalkIsLookup(m, tree, roots, pid, q, 4);
    NodeSteps(pid, q, 4);
  }

  // One translation is new, and every other one, of any process, stays.
  lemma CreatePageMapsOne(m: Memory, roots: map<nat, nat>, pid: nat, q: nat, flags: nat, id: nat, p: nat)
    requires MemoryOk(m, roots) && pid in roots && q < PAGES
    requires CreatePage(m, pid, roots[pid], q * PAGE_SIZE, flags).Done?
    requires id in roots && p < PAGES
    ensures
      var r := CreatePage(m, pid, roots[pid], q * PAGE_SIZE, flags).value;
      && MemoryOk(r, roots) && Preserved(m, r, pid)
      && Walk(m, roots[pid], q, 4) == None
      && Walk(r, roots[id], p, 4) == (if id == pid && p == q then Some(r.last) else Walk(m, roots[id], p, 4))
      && m.frames[r.last].pid == FREE && r.frames[r.last] == Frame(pid, false, q * PAGE_SIZE, flags)
  {
    hide CreatePage, Links, Owned, Rooted, TreeOk, Walk, Preserved;
    var tree: Tree :| Inv(m, tree, roots);
    var r := CreatePage(m, pid, roots[pid], q * PAGE_SIZE, flags).value;
    var t := CreateStep(m, tree, roots, pid, q, flags);
    WalkToPage(m, tree, roots, pid, q);
    WalkToPage(m, tree, roots, id, p);
    WalkToPage(r, t, roots, id, p);
  }

  // The assertion on a page that exists stops the kernel.
  lemma MappedPagePanics(m: Memory, roots: map<nat, nat>, pid: nat, q: nat, flags: nat)
    requires MemoryOk(m, roots) && pid in roots && q < PAGES && Walk(m, roots[pid], q, 4).Some?
    ensures CreatePage(m, pid, roots[pid], q * PAGE_SIZE, flags) == Panic
  {
    hide Links, Owned, Rooted, TreeOk, Walk, MapPage, Reach;
    var tree: Tree :| Inv(m, tree, roots);
    WalkToPage(m, tree, roots, pid, q);
    NodeSteps(pid, q, 4);
    AncestorsIn(tree, pid, q, 4);
    var table := tree.at[Node(pid, q, 3)];
    ReachAgain(m, tree, roots, pid, q, table);
    MapPanics(m, tree, roots, pid, q, table, flags);
  }

  // ---- the batched mapper ----

  // memory_create_page called for the pages q up to `end`, in ascending order.
  function PageByPage(m: Memory, pid: nat, root: nat, q: nat, end: nat, flags: nat): (r: Outcome<Memory>)
    requires Wf(m)
    ensures r.Done? ==> Wf(r.value) && |r.value.frames| == |m.frames|
    decreases end - q
  {
    if q >= end then Done(m)
    else
      var a :- CreatePage(m, pid, root, q * PAGE_SIZE, flags);
      PageByPage(a, pid, root, q + 1, end, flags)
  }

  // The rest of the pages, after the inner loop filled one table.
  function Rest(b: Outcome<Filled>, pid: nat, root: nat, end: nat, flags: nat): (r: Outcome<Memory>)
    requires b.Done? ==> Wf(b.value.mem)
  {
    var a :- b;
    PageByPage(a.mem, pid, root, a.next, end, flags)
  }

  lemma NextInTable(pid: nat, q: nat)
    requires q < PAGES && Index(q, 4) + 1 < SLOTS
    ensures Node(pid, q + 1, 3) == Node(pid, q, 3)
  {
  }

  lemma TableStays(m: Memory, tree: Tree, r: Memory, t: Tree, roots: map<nat, nat>, pid: nat, q: nat, table: nat, flags: nat)
    requires q < PAGES && Reached(m, tree, roots, pid, q, 3, table) && Mapped(m, tree, r, t, roots, pid, q, flags)
    ensures Reached(r, t, roots, pid, q, 3, table)
  {
    hide Inv, Preserved;
  }

  lemma {:induction false} FillIsPageByPage(m: Memory, tree: Tree, roots: map<nat, nat>, pid: nat, q: nat, end: nat, table: nat, flags: nat)
    requires pid in roots && q < end <= PAGES && Reached(m, tree, roots, pid, q, 3, table)
    ensures Rest(Fill(m, pid, table, q, end, flags), pid, roots[pid], end, flags)
         == PageByPage(m, pid, roots[pid], q, end, flags)
    ensures Fill(m, pid, table, q, end, flags).Done? ==> MemoryOk(Fill(m, pid, table, q, end, flags).value.mem, roots)
    decreases end - q
  {
    hide Inv, Reach, MapPage, Node, Index, Mapped;
    assert Wf(m) by { InvWf(m, tree, roots); }
    ReachAgain(m, tree, roots, pid, q, table);
    assert q * PAGE_SIZE / PAGE_SIZE == q;
    var mapped := MapPage(m, pid, table, q, flags);
    assert CreatePage(m, pid, roots[pid], q * PAGE_SIZE, flags) == mapped;
    if mapped.Done? {
      var a := mapped.value;
      var t := MapStep(m, tree, roots, pid, q, table, flags);
      assert Inv(a, t, roots) by { MappedInv(m, tree, a, t, roots, pid, q, flags); }
      if q + 1 < end && Index(q, 4) + 1 < SLOTS {
        NextInTable(pid, q);
        TableStays(m, tree, a, t, roots, pid, q, table, flags);
        FillIsPageByPage(a, t, roots, pid, q + 1, end, table, flags);
      }
    }
  }

  lemma InvWf(m: Memory, tree: Tree, roots: map<nat, nat>)
    requires Inv(m, tree, roots)
    ensures Wf(m)
  {
  }

  lemma MappedInv(m: Memory, tree: Tree, r: Memory, t: Tree, roots: map<nat, nat>, pid: nat, q: nat, flags: nat)
    requires Mapped(m, tree, r, t, roots, pid, q, flags)
    ensures Inv(r, t, roots)
  {
  }

  lemma {:induction false} BatchIsPageByPage(m: Memory, roots: map<nat, nat>, pid: nat, q: nat, end: nat, flags: nat)
    requires MemoryOk(m, roots) && pid in roots && end <= PAGES
    ensures Wf(m) && Batch(m, pid, roots[pid], q, end, flags) == PageByPage(m, pid, roots[pid], q, end, flags)
    decreases end - q
  {
    hide Reach, Inv, MapPage, Fill;
    var tree: Tree :| Inv(m, tree, roots);
    InvWf(m, tree, roots);
    if q < end {
      assert q * PAGE_SIZE / PAGE_SIZE == q;
      var reached := Reach(m, pid, roots[pid], q);
      if reached.Done? {
        var a := reached.value;
        var t := ReachStep(m, tree, roots, pid, q);
        ReachAgain(a.mem, t, roots, pid, q, a.table);
        assert CreatePage(m, pid, roots[pid], q * PAGE_SIZE, flags) == CreatePage(a.mem, pid, roots[pid], q * PAGE_SIZE, flags);
        FillIsPageByPage(a.mem, t, roots, pid, q, end, a.table, flags);
        var filled := Fill(a.mem, pid, a.table, q, end, flags);
        if filled.Done? {
          BatchIsPageByPage(filled.value.mem, roots, pid, filled.value.next, end, flags);
        }
      }
    }
  }

  // The batched mapper leaves the frame table, the cursor and all of memory as
  // the calls for single pages do, and stops the kernel when they do.
  lemma CreatePagesIsPageByPage(m: Memory, roots: map<nat, nat>, pid: nat, from: nat, to: nat, flags: nat)
    requires MemoryOk(m, roots) && pid in roots && to < PAGES * PAGE_SIZE
    ensures Wf(m) && CreatePages(m, pid, roots[pid], from, to, flags)
         == PageByPage(m, pid, roots[pid], from / PAGE_SIZE, to / PAGE_SIZE + 1, flags)
  {
    BatchIsPageByPage(m, roots, pid, from / PAGE_SIZE, to / PAGE_SIZE + 1, flags);
  }
}
