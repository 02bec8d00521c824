// Whole address spaces: isolation, creation, release and the copy made by fork.
module MemoryProcess {
  import opened Common
  import opened MemoryState
  import opened MemoryTree
  import opened MemoryCreate
  import opened MemoryPages

  // ---- isolation ----

  // A mapped page has a frame of its own, which belongs to the process, is not
  // a table, and is tagged with the address of the page.
  lemma PagesHaveOwnFrames(m: Memory, roots: map<nat, nat>, pid: nat, q: nat, id: nat, p: nat)
    requires MemoryOk(m, roots) && pid in roots && id in roots && q < PAGES && p < PAGES
    ensures Walk(m, roots[pid], q, 4).Some? ==>
      var f := Walk(m, roots[pid], q, 4).value;
      && f < |m.frames| && m.frames[f].pid == pid && !m.frames[f].table && m.frames[f].vaddr == q * PAGE_SIZE
      && (Walk(m, roots[id], p, 4) == Some(f) ==> id == pid && p == q)
  {
    hide Walk;
    var tree: Tree :| Inv(m, tree, roots);
    WalkToPage(m, tree, roots, pid, q);
    WalkToPage(m, tree, roots, id, p);
    if Place(pid, 4, q) in tree.at {
      assert RecordOk(m.frames[tree.at[Place(pid, 4, q)]], Place(pid, 4, q));
    }
  }

  // Conversely, every user frame of a live process is mapped at its tag.
  lemma UserFramesAreMapped(m: Memory, roots: map<nat, nat>, f: nat)
    requires MemoryOk(m, roots) && f < |m.frames| && m.frames[f].pid >= FIRST_PID && !m.frames[f].table
    ensures
      var q := m.frames[f].vaddr / PAGE_SIZE;
      m.frames[f].vaddr == q * PAGE_SIZE && q < PAGES && m.frames[f].pid in roots
      && Walk(m, roots[m.frames[f].pid], q, 4) == Some(f)
  {
    hide Walk;
    var tree: Tree :| Inv(m, tree, roots);
    UserPlace(m, tree, roots, f);
    WalkToPage(m, tree, roots, m.frames[f].pid, m.frames[f].vaddr / PAGE_SIZE);
  }

  lemma UserPlace(m: Memory, tree: Tree, roots: map<nat, nat>, f: nat)
    requires Inv(m, tree, roots) && f < |m.frames| && m.frames[f].pid >= FIRST_PID && !m.frames[f].table
    ensures
      var q := m.frames[f].vaddr / PAGE_SIZE;
      && m.frames[f].vaddr == q * PAGE_SIZE && q < PAGES && m.frames[f].pid in roots
      && Place(m.frames[f].pid, 4, q) in tree.at && tree.at[Place(m.frames[f].pid, 4, q)] == f
  {
    assert f in tree.own && RecordOk(m.frames[f], tree.own[f]);
    var p := tree.own[f];
    assert p.level == 4 && p == Place(m.frames[f].pid, 4, p.key);
    assert p.key * PAGE_SIZE / PAGE_SIZE == p.key;
  }

  // The processor's access rights are the flags the page was created with.
  lemma PagesHaveTheirRights(m: Memory, roots: map<nat, nat>, pid: nat, q: nat)
    requires MemoryOk(m, roots) && pid in roots && q < PAGES && Walk(m, roots[pid], q, 4).Some?
    ensures
      var t := Walk(m, roots[pid], q, 3);
      var f := Walk(m, roots[pid], q, 4).value;
      && t.Some? && t.value < |m.ram| && f < |m.frames|
      && var e := m.ram[t.value][Index(q, 4)];
      && (e.writable <==> m.frames[f].flags % 2 == 1)
      && (e.noExec <==> m.frames[f].flags / 2 % 2 == 0)
  {
    hide Index;
    var tree: Tree :| Inv(m, tree, roots);
    WalkIsLookup(m, tree, roots, pid, q, 3);
    WalkToPage(m, tree, roots, pid, q);
    NodeSteps(pid, q, 4);
    AncestorsIn(tree, pid, q, 4);
    PlaceOwned(m, tree, Node(pid, q, 4));
    assert EntryOkAt(m, tree, Node(pid, q, 3), Index(q, 4));
  }

  // ---- a new process ----

  lemma NewTableKeepsOk(m: Memory, roots: map<nat, nat>, pid: nat, id: nat, p: nat)
    requires MemoryOk(m, roots) && pid !in roots && pid >= FIRST_PID && NewTable(m, pid).Done? && p < PAGES
    ensures
      var r := NewTable(m, pid).value;
      && MemoryOk(r, roots[pid := r.last])
      && Walk(r, r.last, p, 4) == None
      && (id in roots ==> Walk(r, roots[id], p, 4) == Walk(m, roots[id], p, 4))
  {
    hide Walk;
    var tree: Tree :| Inv(m, tree, roots);
    var r := NewTable(m, pid).value;
    var t := Grow(tree, Root(pid), r.last);
    var more := roots[pid := r.last];
    NewRootKeepsInv(m, tree, roots, pid);
    WalkToPage(r, t, more, pid, p);
    if id in roots {
      WalkToPage(m, tree, roots, id, p);
      WalkToPage(r, t, more, id, p);
    }
  }

  lemma NewRootKeepsInv(m: Memory, tree: Tree, roots: map<nat, nat>, pid: nat)
    requires Inv(m, tree, roots) && pid !in roots && pid >= FIRST_PID && NewTable(m, pid).Done?
    ensures
      var r := NewTable(m, pid).value;
      Inv(r, Grow(tree, Root(pid), r.last), roots[pid := r.last])
  {
    hide TreeOk, Owned, Links, Rooted, NewTable, Wf;
    var r := NewTable(m, pid).value;
    NewRootFrame(m, tree, roots, pid);
    NewRootTree(m, r, tree, roots, pid, r.last);
    NewRootLinks(m, r, tree, pid, r.last);
  }

  lemma NewRootFrame(m: Memory, tree: Tree, roots: map<nat, nat>, pid: nat)
    requires Inv(m, tree, roots) && pid !in roots && pid >= FIRST_PID && NewTable(m, pid).Done?
    ensures
      var r := NewTable(m, pid).value;
      && Wf(r) && RootAdded(m, r, tree, pid, r.last)
  {
    hide Links, EmptyTable;
  }

  ghost predicate RootAdded(m: Memory, r: Memory, tree: Tree, pid: nat, f: nat)
    requires Wf(m) && Wf(r)
  {
    && f < |m.frames| == |r.frames| && f !in tree.own && (forall p :: p in tree.at ==> p.pid != pid)
    && r.frames == m.frames[f := r.frames[f]] && RecordOk(r.frames[f], Root(pid))
    && r.ram == m.ram[f := EmptyTable()]
  }

  lemma NewRootTree(m: Memory, r: Memory, tree: Tree, roots: map<nat, nat>, pid: nat, f: nat)
    requires Wf(m) && Wf(r) && TreeOk(tree) && Owned(m, tree) && Rooted(roots, tree) && RootAdded(m, r, tree, pid, f)
    requires pid !in roots
    ensures
      var t := Grow(tree, Root(pid), f);
      TreeOk(t) && Owned(r, t) && Rooted(roots[pid := f], t)
  {
    hide TreeOk, Owned, EmptyTable, Wf;
    GrowRoot(tree, pid, f);
    GrowRootOwned(m, r, tree, pid, f);
  }

  lemma GrowRoot(tree: Tree, pid: nat, f: nat)
    requires TreeOk(tree) && f !in tree.own && Root(pid) !in tree.at
    ensures TreeOk(Grow(tree, Root(pid), f))
  {
    var t := Grow(tree, Root(pid), f);
    assert forall p :: p in t.at && p.level > 0 ==> p in tree.at;
  }

  lemma GrowRootOwned(m: Memory, r: Memory, tree: Tree, pid: nat, f: nat)
    requires Owned(m, tree) && f < |m.frames| == |r.frames| && f !in tree.own
    requires r.frames == m.frames[f := r.frames[f]] && RecordOk(r.frames[f], Root(pid))
    ensures Owned(r, Grow(tree, Root(pid), f))
  {
  }

  lemma NewRootLinks(m: Memory, r: Memory, tree: Tree, pid: nat, f: nat)
    requires Wf(m) && Wf(r) && TreeOk(tree) && Owned(m, tree) && Links(m, tree) && RootAdded(m, r, tree, pid, f)
    ensures Links(r, Grow(tree, Root(pid), f))
  {
    var t := Grow(tree, Root(pid), f);
    forall p: Place, i: nat
      ensures EntryOkAt(r, t, p, i)
    {
      if p in t.at && p.level < 4 && i < SLOTS {
        if p == Root(pid) {
          NewRootEntry(r, tree, pid, f, i);
        } else {
          OldEntry(m, r, tree, pid, f, p, i);
        }
      }
    }
  }

  lemma NewRootEntry(r: Memory, tree: Tree, pid: nat, f: nat, i: nat)
    requires Wf(r) && f < |r.ram| && r.ram[f] == EmptyTable() && i < SLOTS
    requires forall p :: p in tree.at ==> p.pid != pid
    ensures EntryLinks(r, Grow(tree, Root(pid), f), Root(pid), i) && Rights(r, Grow(tree, Root(pid), f), Root(pid), i)
  {
    assert Child(Root(pid), i).pid == pid;
  }

  lemma OldEntry(m: Memory, r: Memory, tree: Tree, pid: nat, f: nat, p: Place, i: nat)
    requires Wf(m) && Wf(r) && TreeOk(tree) && Owned(m, tree) && Links(m, tree) && RootAdded(m, r, tree, pid, f)
    requires p in tree.at && p.level < 4 && i < SLOTS
    ensures
      var t := Grow(tree, Root(pid), f);
      p in t.at && t.at[p] == tree.at[p] < |r.ram| && EntryLinks(r, t, p, i) && Rights(r, t, p, i)
  {
    hide EmptyTable;
    LookupStep(m, tree, p, i);
    assert EntryOkAt(m, tree, p, i);
    assert tree.at[p] in tree.own;
    assert r.ram[tree.at[p]] == m.ram[tree.at[p]];
    if Child(p, i) in tree.at { assert tree.at[Child(p, i)] in tree.own; }
  }

  // ---- memory_free_process ----

  ghost function Pruned(tree: Tree, pid: nat): Tree {
    Tree(map p | p in tree.at && p.pid != pid :: tree.at[p], map f | f in tree.own && tree.own[f].pid != pid :: tree.own[f])
  }

  lemma FreeKeepsInv(m: Memory, tree: Tree, roots: map<nat, nat>, pid: nat)
    requires Inv(m, tree, roots) && pid >= FIRST_PID
    ensures Inv(FreeProcess(m, pid), Pruned(tree, pid), roots - {pid})
  {
    hide TreeOk, Owned, Links, Rooted;
    PrunedTree(tree, pid);
    PrunedOwned(m, tree, pid);
    PrunedLinks(m, tree, pid);
    PrunedRooted(roots, tree, pid);
  }

  lemma PrunedTree(tree: Tree, pid: nat)
    requires TreeOk(tree)
    ensures TreeOk(Pruned(tree, pid))
  {
    hide Span;
  }

  lemma PrunedRooted(roots: map<nat, nat>, tree: Tree, pid: nat)
    requires Rooted(roots, tree)
    ensures Rooted(roots - {pid}, Pruned(tree, pid))
  {
  }

  lemma PrunedOwned(m: Memory, tree: Tree, pid: nat)
    requires Wf(m) && TreeOk(tree) && Owned(m, tree) && pid >= FIRST_PID
    ensures Owned(FreeProcess(m, pid), Pruned(tree, pid))
  {
    var r, t := FreeProcess(m, pid), Pruned(tree, pid);
    forall f | f in t.own
      ensures f < |r.frames| && RecordOk(r.frames[f], t.own[f])
    {
      assert f in tree.own && RecordOk(m.frames[f], tree.own[f]);
    }
  }

  lemma PrunedLinks(m: Memory, tree: Tree, pid: nat)
    requires Wf(m) && TreeOk(tree) && Owned(m, tree) && Links(m, tree) && pid >= FIRST_PID
    ensures Links(FreeProcess(m, pid), Pruned(tree, pid))
  {
    var r, t := FreeProcess(m, pid), Pruned(tree, pid);
    forall p: Place, i: nat
      ensures EntryOkAt(r, t, p, i)
    {
      if p in t.at && p.level < 4 && i < SLOTS {
        PrunedEntry(m, tree, pid, p, i);
      }
    }
  }

  lemma PrunedEntry(m: Memory, tree: Tree, pid: nat, p: Place, i: nat)
    requires Wf(m) && TreeOk(tree) && Owned(m, tree) && Links(m, tree) && pid >= FIRST_PID
    requires p in tree.at && p.pid != pid && p.level < 4 && i < SLOTS
    ensures
      var r, t := FreeProcess(m, pid), Pruned(tree, pid);
      p in t.at && t.at[p] < |r.ram| && EntryLinks(r, t, p, i) && Rights(r, t, p, i)
  {
    hide TreeOk, Owned;
    LookupStep(m, tree, p, i);
    assert EntryOkAt(m, tree, p, i);
    if Child(p, i) in tree.at {
      PlaceOwned(m, tree, Child(p, i));
    }
  }

  // All frames of the process are free, and nobody else notices.
  lemma FreeProcessReleasesAll(m: Memory, roots: map<nat, nat>, pid: nat, id: nat, p: nat)
    requires MemoryOk(m, roots) && pid in roots && p < PAGES
    ensures
      var r := FreeProcess(m, pid);
      && MemoryOk(r, roots - {pid})
      && (forall f :: 0 <= f < |m.frames| ==> r.frames[f].pid == if m.frames[f].pid == pid then FREE else m.frames[f].pid)
      && (id in roots && id != pid ==> Walk(r, roots[id], p, 4) == Walk(m, roots[id], p, 4))
  {
    hide Walk, TreeOk, Owned, Links, Rooted;
    var tree: Tree :| Inv(m, tree, roots);
    OwnerOk(m, tree, roots, pid);
    FreeKeepsInv(m, tree, roots, pid);
    if id in roots && id != pid {
      WalkToPage(m, tree, roots, id, p);
      WalkToPage(FreeProcess(m, pid), Pruned(tree, pid), roots - {pid}, id, p);
    }
  }

  // ---- fork ----

  ghost predicate UserFrame(m: Memory, f: nat) {
    f < |m.frames| && m.frames[f].pid >= FIRST_PID && !m.frames[f].table
  }

  // Writing a user page cannot disturb the tables.
  lemma UserWriteKeepsInv(m: Memory, tree: Tree, roots: map<nat, nat>, f: nat, content: seq<Entry>)
    requires Inv(m, tree, roots) && UserFrame(m, f) && TableOk(content)
    ensures Inv(m.(ram := m.ram[f := content]), tree, roots)
  {
    UserWriteLinks(m, tree, f, content);
  }

  lemma UserWriteLinks(m: Memory, tree: Tree, f: nat, content: seq<Entry>)
    requires Wf(m) && TreeOk(tree) && Owned(m, tree) && Links(m, tree) && UserFrame(m, f) && TableOk(content)
    ensures Wf(m.(ram := m.ram[f := content])) && Links(m.(ram := m.ram[f := content]), tree)
  {
    var r := m.(ram := m.ram[f := content]);
    forall p: Place, i: nat
      ensures EntryOkAt(r, tree, p, i)
    {
      assert EntryOkAt(m, tree, p, i);
      if p in tree.at && p.level < 4 && i < SLOTS {
        PlaceOwned(m, tree, p);
      }
    }
  }

  // The child's page is a copy of the parent's, in another frame.
  ghost predicate Copied(m: Memory, tree: Tree, r: Memory, t: Tree, child: nat, parent: nat, q: nat)
    requires Wf(m) && Wf(r)
  {
    && Place(parent, 4, q) in tree.at && Place(child, 4, q) in t.at
    && var f, g := tree.at[Place(parent, 4, q)], t.at[Place(child, 4, q)];
    f < |m.frames| && g < |r.frames| && g < |m.frames| && m.frames[g].pid == FREE
    && r.ram[g] == m.ram[f] && r.frames[g] == m.frames[f].(pid := child)
  }

  // The scan has reached frame i: the child has exactly the parent's pages in
  // the frames before it.
  ghost predicate ForkedTo(m: Memory, tree: Tree, r: Memory, t: Tree, roots: map<nat, nat>, child: nat, parent: nat, i: nat) {
    && Inv(m, tree, roots) && Inv(r, t, roots) && Preserved(m, r, child) && |r.frames| == |m.frames|
    && (forall p :: p in tree.at ==> p in t.at && t.at[p] == tree.at[p])
    && (forall p :: p in t.at && p !in tree.at ==> p.pid == child)
    && (forall q :: 0 <= q < PAGES ==>
         (Place(child, 4, q) in t.at <==> Place(parent, 4, q) in tree.at && tree.at[Place(parent, 4, q)] < i)
         && (Place(child, 4, q) in t.at ==> Copied(m, tree, r, t, child, parent, q)))
  }

  lemma SameParentFrame(m: Memory, r: Memory, child: nat, parent: nat, i: nat)
    requires Wf(m) && Wf(r) && Preserved(m, r, child) && child != parent && parent >= FIRST_PID && i < |m.frames|
    ensures r.frames[i].pid == parent ==> r.frames[i] == m.frames[i]
    ensures m.frames[i].pid == parent ==> r.frames[i] == m.frames[i]
    ensures m.frames[i].pid == parent && !m.frames[i].table ==> r.ram[i] == m.ram[i]
  {
  }

  // A frame that is not a user page of the parent is passed over.
  lemma ForkSkips(m: Memory, tree: Tree, r: Memory, t: Tree, roots: map<nat, nat>, child: nat, parent: nat, i: nat)
    requires ForkedTo(m, tree, r, t, roots, child, parent, i) && child != parent && parent >= FIRST_PID && i < |m.frames|
    requires r.frames[i].pid != parent || r.frames[i].table
    ensures ForkedTo(m, tree, r, t, roots, child, parent, i + 1)
  {
    hide Links, Rooted, Copied, Owned, TreeOk, Preserved;
    forall q | 0 <= q < PAGES && Place(parent, 4, q) in tree.at
      ensures tree.at[Place(parent, 4, q)] != i
    {
      PlaceOwned(m, tree, Place(parent, 4, q));
      SameParentFrame(m, r, child, parent, i);
    }
  }

  lemma CopyKept(m: Memory, tree: Tree, r: Memory, t: Tree, r': Memory, t': Tree, child: nat, parent: nat, q: nat)
    requires Wf(m) && Wf(r) && Wf(r') && Preserved(r, r', child) && child >= FIRST_PID
    requires Copied(m, tree, r, t, child, parent, q) && !m.frames[tree.at[Place(parent, 4, q)]].table
    requires Place(child, 4, q) in t'.at && t'.at[Place(child, 4, q)] == t.at[Place(child, 4, q)]
    ensures Copied(m, tree, r', t', child, parent, q)
  {
  }

  // One page of the parent is created in the child and copied.
  lemma ForkPage(m: Memory, roots: map<nat, nat>, r: Memory, t: Tree, child: nat, parent: nat, i: nat, q: nat) returns (a: Memory, t': Tree)
    requires Inv(r, t, roots) && child in roots && i < |r.frames| && r.frames[i].pid == parent && !r.frames[i].table
    requires q < PAGES && r.frames[i].vaddr == q * PAGE_SIZE && parent >= FIRST_PID && child != parent
    requires CreatePage(r, child, roots[child], q * PAGE_SIZE, r.frames[i].flags).Done?
    ensures
      var c := CreatePage(r, child, roots[child], q * PAGE_SIZE, r.frames[i].flags).value;
      a == CopyFrame(c, c.last, i) && Inv(a, t', roots) && Preserved(r, a, child)
    ensures PageAdded(r, t, a, t', roots, child, q, r.frames[i].flags) && a.ram[a.last] == r.ram[i]
  {
    hide Links, Owned, Rooted, TreeOk, CreatePage;
    var c := CreatePage(r, child, roots[child], q * PAGE_SIZE, r.frames[i].flags).value;
    t' := CreateStep(r, t, roots, child, q, r.frames[i].flags);
    OwnerOk(r, t, roots, child);
    UserWriteKeepsInv(c, t', roots, c.last, c.ram[i]);
    a := CopyFrame(c, c.last, i);
  }

  lemma ForkCopiesOne(m: Memory, tree: Tree, r: Memory, t: Tree, a: Memory, t': Tree, roots: map<nat, nat>, child: nat, parent: nat, i: nat, q: nat)
    requires ForkedTo(m, tree, r, t, roots, child, parent, i) && child in roots && child != parent && i < |m.frames|
    requires r.frames[i].pid == parent && !r.frames[i].table && parent >= FIRST_PID && child >= FIRST_PID && q < PAGES
    requires Place(parent, 4, q) in tree.at && tree.at[Place(parent, 4, q)] == i
    requires r.frames[i].vaddr == q * PAGE_SIZE
    requires PageAdded(r, t, a, t', roots, child, q, r.frames[i].flags) && a.ram[a.last] == r.ram[i]
    ensures ForkedTo(m, tree, a, t', roots, child, parent, i + 1)
  {
    hide Links, Rooted, Owned, TreeOk, Copied, Wf, Preserved;
    PreservedTwice(m, r, a, child);
    forall p | 0 <= p < PAGES
      ensures Place(child, 4, p) in t'.at <==> Place(parent, 4, p) in tree.at && tree.at[Place(parent, 4, p)] < i + 1
      ensures Place(child, 4, p) in t'.at ==> Copied(m, tree, a, t', child, parent, p)
    {
      if p == q {
        ForkNewPage(m, tree, r, t, a, t', roots, child, parent, i, q);
      } else if Place(parent, 4, p) in tree.at {
        ParentPageOther(tree, parent, p, q);
        if Place(child, 4, p) in t.at {
          PlaceOwned(m, tree, Place(parent, 4, p));
          assert Preserved(r, a, child);
          CopyKept(m, tree, r, t, a, t', child, parent, p);
        }
      }
    }
  }

  lemma ForkNewPage(m: Memory, tree: Tree, r: Memory, t: Tree, a: Memory, t': Tree, roots: map<nat, nat>, child: nat, parent: nat, i: nat, q: nat)
    requires Wf(m) && Wf(r) && Preserved(m, r, child) && child != parent && i < |m.frames|
    requires r.frames[i].pid == parent && !r.frames[i].table && parent >= FIRST_PID && child >= FIRST_PID && q < PAGES
    requires Place(parent, 4, q) in tree.at && tree.at[Place(parent, 4, q)] == i
    requires r.frames[i].vaddr == q * PAGE_SIZE
    requires PageAdded(r, t, a, t', roots, child, q, r.frames[i].flags) && a.ram[a.last] == r.ram[i]
    ensures Copied(m, tree, a, t', child, parent, q)
  {
    hide Links, Rooted, Owned, TreeOk;
    SameParentFrame(m, r, child, parent, i);
  }

  lemma ParentPageOther(tree: Tree, parent: nat, p: nat, q: nat)
    requires TreeOk(tree) && p != q && Place(parent, 4, p) in tree.at && Place(parent, 4, q) in tree.at
    ensures tree.at[Place(parent, 4, p)] != tree.at[Place(parent, 4, q)]
  {
  }
}
