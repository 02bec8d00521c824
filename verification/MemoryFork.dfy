// The copy of an address space made by fork, as a whole.
module MemoryFork {
  import opened Common
  import opened MemoryState
  import opened MemoryTree
  import opened MemoryCreate
  import opened MemoryPages
  import opened MemoryRoom
  import opened MemoryProcess

  // The scan from frame i on reaches the end of the frame table.
  lemma {:induction false} ForkRun(m: Memory, tree: Tree, r: Memory, t: Tree, roots: map<nat, nat>, child: nat, parent: nat, i: nat)
      returns (u: Tree)
    requires ForkedTo(m, tree, r, t, roots, child, parent, i) && i <= |m.frames|
    requires child in roots && parent in roots && child != parent
    requires CopySpace(r, child, roots[child], parent, i).Done?
    ensures ForkedTo(m, tree, CopySpace(r, child, roots[child], parent, i).value, u, roots, child, parent, |m.frames|)
    decreases |m.frames| - i
  {
    hide Links, Owned, Rooted, TreeOk, CreatePage, ForkedTo, PageAdded;
    ForkedInv(m, tree, r, t, roots, child, parent, i);
    OwnerOk(r, t, roots, parent);
    if i == |m.frames| {
      u := t;
    } else if r.frames[i].pid == parent && !r.frames[i].table {
      ParentPlace(m, tree, r, t, roots, child, parent, i);
      var q := r.frames[i].vaddr / PAGE_SIZE;
      assert CreatePage(r, child, roots[child], q * PAGE_SIZE, r.frames[i].flags).Done?;
      var a, t' := ForkPage(m, roots, r, t, child, parent, i, q);
      OwnerOk(r, t, roots, child);
      ForkCopiesOne(m, tree, r, t, a, t', roots, child, parent, i, q);
      u := ForkRun(m, tree, a, t', roots, child, parent, i + 1);
    } else {
      ForkSkips(m, tree, r, t, roots, child, parent, i);
      u := ForkRun(m, tree, r, t, roots, child, parent, i + 1);
    }
  }

  lemma ForkedInv(m: Memory, tree: Tree, r: Memory, t: Tree, roots: map<nat, nat>, child: nat, parent: nat, i: nat)
    requires ForkedTo(m, tree, r, t, roots, child, parent, i)
    ensures Inv(m, tree, roots) && Inv(r, t, roots) && Preserved(m, r, child) && |r.frames| == |m.frames|
  {
  }

  lemma ParentPlace(m: Memory, tree: Tree, r: Memory, t: Tree, roots: map<nat, nat>, child: nat, parent: nat, i: nat)
    requires ForkedTo(m, tree, r, t, roots, child, parent, i) && i < |m.frames| && child != parent && parent >= FIRST_PID
    requires r.frames[i].pid == parent && !r.frames[i].table
    ensures
      var q := r.frames[i].vaddr / PAGE_SIZE;
      && r.frames[i].vaddr == q * PAGE_SIZE && q < PAGES
      && Place(parent, 4, q) in tree.at && tree.at[Place(parent, 4, q)] == i
  {
    hide Links, Rooted, TreeOk, Copied;
    SameParentFrame(m, r, child, parent, i);
    UserPlace(m, tree, roots, i);
  }

  lemma ForkStart(m: Memory, tree: Tree, roots: map<nat, nat>, child: nat, parent: nat)
    requires Inv(m, tree, roots) && child in roots && parent in roots && child != parent
    requires Unmapped(m, roots[child], 0, PAGES)
    ensures ForkedTo(m, tree, m, tree, roots, child, parent, 0)
  {
    hide Links, Rooted, TreeOk, Copied, Walk;
    forall q | 0 <= q < PAGES
      ensures Place(child, 4, q) !in tree.at
    {
      WalkToPage(m, tree, roots, child, q);
      assert Walk(m, roots[child], q, 4) == None;
    }
  }

  // The child's frame g is a copy of the parent's frame f: a frame that was
  // free, with the same bytes, tag and flags.
  ghost predicate PageCopied(m: Memory, r: Memory, f: nat, g: nat, child: nat)
    requires Wf(m) && Wf(r)
  {
    && f < |m.frames| && g < |m.frames| && f < |r.frames| && g < |r.frames|
    && m.frames[g].pid == FREE && r.ram[g] == m.ram[f] && r.frames[g] == m.frames[f].(pid := child)
    && r.ram[f] == m.ram[f] && r.frames[f] == m.frames[f]
  }

  // An empty child gets exactly the parent's pages, each as a copy in a frame
  // of its own; the pages of all other processes, the parent included, stay.
  lemma ForkCopiesSpace(m: Memory, roots: map<nat, nat>, child: nat, parent: nat, q: nat, id: nat)
    requires MemoryOk(m, roots) && child in roots && parent in roots && child != parent && q < PAGES
    requires Unmapped(m, roots[child], 0, PAGES) && CopySpace(m, child, roots[child], parent, 0).Done?
    ensures
      var r := CopySpace(m, child, roots[child], parent, 0).value;
      var f, g := Walk(m, roots[parent], q, 4), Walk(r, roots[child], q, 4);
      && MemoryOk(r, roots) && Preserved(m, r, child)
      && (g.Some? <==> f.Some?)
      && (f.Some? ==> PageCopied(m, r, f.value, g.value, child))
      && (id in roots && id != child ==> Walk(r, roots[id], q, 4) == Walk(m, roots[id], q, 4))
  {
    hide Links, Owned, Rooted, TreeOk, Walk, ForkedTo, CopySpace;
    var tree: Tree :| Inv(m, tree, roots);
    var r := CopySpace(m, child, roots[child], parent, 0).value;
    OwnerOk(m, tree, roots, parent);
    ForkStart(m, tree, roots, child, parent);
    var t := ForkRun(m, tree, m, tree, roots, child, parent, 0);
    ForkedInv(m, tree, r, t, roots, child, parent, |m.frames|);
    WalkToPage(m, tree, roots, parent, q);
    WalkToPage(r, t, roots, child, q);
    ForkedPages(m, tree, r, t, roots, child, parent, q);
    if id in roots && id != child {
      WalkToPage(m, tree, roots, id, q);
      WalkToPage(r, t, roots, id, q);
      ForkedOthers(m, tree, r, t, roots, child, parent, q, id);
    }
  }

  lemma ForkedPages(m: Memory, tree: Tree, r: Memory, t: Tree, roots: map<nat, nat>, child: nat, parent: nat, q: nat)
    requires ForkedTo(m, tree, r, t, roots, child, parent, |m.frames|) && q < PAGES && child != parent && parent >= FIRST_PID
    ensures Place(child, 4, q) in t.at <==> Place(parent, 4, q) in tree.at
    ensures Place(parent, 4, q) in tree.at ==>
      Place(child, 4, q) in t.at && PageCopied(m, r, tree.at[Place(parent, 4, q)], t.at[Place(child, 4, q)], child)
  {
    hide Links, Rooted, TreeOk;
    if Place(parent, 4, q) in tree.at {
      PlaceOwned(m, tree, Place(parent, 4, q));
      SameParentFrame(m, r, child, parent, tree.at[Place(parent, 4, q)]);
    }
  }

  lemma ForkedOthers(m: Memory, tree: Tree, r: Memory, t: Tree, roots: map<nat, nat>, child: nat, parent: nat, q: nat, id: nat)
    requires ForkedTo(m, tree, r, t, roots, child, parent, |m.frames|) && id != child
    ensures Place(id, 4, q) in t.at <==> Place(id, 4, q) in tree.at
    ensures Place(id, 4, q) in tree.at ==> t.at[Place(id, 4, q)] == tree.at[Place(id, 4, q)]
  {
  }

  // ---- with four free frames for each page, fork succeeds ----

  ghost function PagesFrom(frames: seq<Frame>, pid: nat, i: nat): nat
    requires i <= |frames|
    decreases |frames| - i
  {
    if i == |frames| then 0
    else (if frames[i].pid == pid && !frames[i].table then 1 else 0) + PagesFrom(frames, pid, i + 1)
  }

  lemma {:induction false} SamePages(m: Memory, r: Memory, child: nat, parent: nat, i: nat)
    requires Wf(m) && Wf(r) && Preserved(m, r, child) && child != parent && parent >= FIRST_PID && i <= |m.frames|
    ensures |r.frames| == |m.frames| && PagesFrom(r.frames, parent, i) == PagesFrom(m.frames, parent, i)
    decreases |m.frames| - i
  {
    if i < |m.frames| {
      SameParentFrame(m, r, child, parent, i);
      SamePages(m, r, child, parent, i + 1);
    }
  }

  lemma CopyKeepsRoom(m: Memory, to: nat, from: nat, k: nat)
    requires Wf(m) && to < |m.ram| && from < |m.ram| && Room(m, k)
    ensures Room(CopyFrame(m, to, from), k)
  {
    assert FreeFrames(CopyFrame(m, to, from)) == FreeFrames(m);
  }

  lemma PageStillMissing(m: Memory, tree: Tree, r: Memory, t: Tree, roots: map<nat, nat>, child: nat, parent: nat, i: nat)
    requires ForkedTo(m, tree, r, t, roots, child, parent, i) && i < |m.frames| && child in roots && child != parent && parent >= FIRST_PID
    requires r.frames[i].pid == parent && !r.frames[i].table
    ensures Walk(r, roots[child], r.frames[i].vaddr / PAGE_SIZE, 4) == None
  {
    hide Links, Rooted, TreeOk, Owned, Walk, Copied;
    ParentPlace(m, tree, r, t, roots, child, parent, i);
    WalkToPage(r, t, roots, child, r.frames[i].vaddr / PAGE_SIZE);
  }

  lemma {:induction false} ForkHasRoom(m: Memory, tree: Tree, r: Memory, t: Tree, roots: map<nat, nat>, child: nat, parent: nat, i: nat)
    requires ForkedTo(m, tree, r, t, roots, child, parent, i) && i <= |r.frames|
    requires child in roots && parent in roots && child != parent
    requires Room(r, 4 * PagesFrom(r.frames, parent, i))
    ensures CopySpace(r, child, roots[child], parent, i).Done?
    decreases |r.frames| - i
  {
    hide Links, Owned, Rooted, TreeOk, CreatePage, ForkedTo, PageAdded, Room, Preserved;
    ForkedInv(m, tree, r, t, roots, child, parent, i);
    OwnerOk(r, t, roots, parent);
    OwnerOk(r, t, roots, child);
    if i == |r.frames| {
    } else if r.frames[i].pid == parent && !r.frames[i].table {
      ParentPlace(m, tree, r, t, roots, child, parent, i);
      PageStillMissing(m, tree, r, t, roots, child, parent, i);
      var q := r.frames[i].vaddr / PAGE_SIZE;
      var k := 4 * PagesFrom(r.frames, parent, i + 1);
      CreatePageSucceeds(r, roots, child, q, r.frames[i].flags, k);
      var c := CreatePage(r, child, roots[child], q * PAGE_SIZE, r.frames[i].flags).value;
      var a, t' := ForkPage(m, roots, r, t, child, parent, i, q);
      CopyKeepsRoom(c, c.last, i, k);
      SamePages(r, a, child, parent, i + 1);
      ForkCopiesOne(m, tree, r, t, a, t', roots, child, parent, i, q);
      ForkHasRoom(m, tree, a, t', roots, child, parent, i + 1);
    } else {
      ForkSkips(m, tree, r, t, roots, child, parent, i);
      ForkHasRoom(m, tree, r, t, roots, child, parent, i + 1);
    }
  }

  lemma ForkSucceeds(m: Memory, roots: map<nat, nat>, child: nat, parent: nat)
    requires MemoryOk(m, roots) && child in roots && parent in roots && child != parent
    requires Unmapped(m, roots[child], 0, PAGES) && Room(m, 4 * PagesFrom(m.frames, parent, 0))
    ensures CopySpace(m, child, roots[child], parent, 0).Done?
  {
    hide Links, Owned, Rooted, TreeOk, Walk, ForkedTo, CopySpace, Room;
    var tree: Tree :| Inv(m, tree, roots);
    ForkStart(m, tree, roots, child, parent);
    ForkHasRoom(m, tree, m, tree, roots, child, parent, 0);
  }
}
