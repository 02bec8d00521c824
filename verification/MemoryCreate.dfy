// Mapping pages: one call adds one translation, and the batched mapper is the
// page-by-page one.
module MemoryCreate {
  import opened MemoryState
  import opened MemoryTree

  // Only free frames change hands, and neither the kernel's memory nor a user
  // page is written.
  ghost predicate Preserved(m: Memory, r: Memory, pid: nat)
    requires Wf(m) && Wf(r)
  {
    && |r.frames| == |m.frames|
    && forall f :: 0 <= f < |m.frames| ==>
      && (r.frames[f] == m.frames[f] || (m.frames[f].pid == FREE && r.frames[f].pid == pid))
      && (m.frames[f].pid != FREE && (m.frames[f].pid < FREE || !m.frames[f].table) ==> r.ram[f] == m.ram[f])
  }

  // The process got new tables, and nothing else changed.
  ghost predicate Extends(tree: Tree, t: Tree, pid: nat) {
    && (forall p :: p in tree.at ==> p in t.at && t.at[p] == tree.at[p])
    && (forall p :: p in t.at && p !in tree.at ==> p.level < 4 && p.pid == pid)
  }

  lemma PreservedTwice(m: Memory, a: Memory, r: Memory, pid: nat)
    requires Wf(m) && Wf(a) && Wf(r) && pid >= FIRST_PID
    requires Preserved(m, a, pid) && Preserved(a, r, pid)
    ensures Preserved(m, r, pid)
  {
  }

  lemma GrowPreserves(m: Memory, r: Memory, tree: Tree, p: Place, i: nat, f: nat, e: Entry)
    requires Wf(m) && Wf(r) && TreeOk(tree) && Owned(m, tree) && Links(m, tree) && Grows(m, r, tree, p, i, f, e)
    ensures Preserved(m, r, p.pid)
  {
    GrowNew(m, r, tree, p, i, f, e);
    assert RecordOk(m.frames[tree.at[p]], tree.own[tree.at[p]]);
  }

  // ---- one level of the walk ----

  lemma DescendGrows(m: Memory, tree: Tree, p: Place, i: nat)
    requires Wf(m) && TreeOk(tree) && Owned(m, tree) && Links(m, tree)
    requires p in tree.at && p.level < 3 && i < SLOTS && p.pid >= FIRST_PID
    requires Child(p, i) !in tree.at && tree.at[p] < |m.ram|
    requires Descend(m, p.pid, tree.at[p], i).Done?
    ensures
      var r := Descend(m, p.pid, tree.at[p], i).value;
      && r.table == r.mem.last
      && Grows(m, r.mem, tree, p, i, r.table, Linked(m.ram[tree.at[p]][i], r.table))
  {
    assert EntryOkAt(m, tree, p, i);
    assert RecordOk(m.frames[tree.at[p]], tree.own[tree.at[p]]);
  }

  lemma PlaceOwned(m: Memory, tree: Tree, p: Place)
    requires Wf(m) && TreeOk(tree) && Owned(m, tree) && p in tree.at
    ensures tree.at[p] < |m.frames| && p.pid >= FIRST_PID && m.frames[tree.at[p]].pid == p.pid
    ensures m.frames[tree.at[p]].table <==> p.level < 4
  {
    assert RecordOk(m.frames[tree.at[p]], tree.own[tree.at[p]]);
  }

  lemma DescendFollows(m: Memory, tree: Tree, p: Place, i: nat)
    requires Wf(m) && TreeOk(tree) && Owned(m, tree) && Links(m, tree)
    requires Child(p, i) in tree.at && p in tree.at && p.level < 3 && i < SLOTS
    ensures Descend(m, p.pid, tree.at[p], i) == Done(At(m, tree.at[Child(p, i)]))
  {
    LookupStep(m, tree, p, i);
  }

  lemma ExtendsSelf(tree: Tree, pid: nat)
    ensures Extends(tree, tree, pid)
  {
  }

  lemma PreservedSelf(m: Memory, pid: nat)
    requires Wf(m)
    ensures Preserved(m, m, pid)
  {
  }

  lemma DescendStep(m: Memory, tree: Tree, roots: map<nat, nat>, p: Place, i: nat) returns (t: Tree)
    requires Inv(m, tree, roots) && p in tree.at && p.level < 3 && i < SLOTS
    requires Descend(m, p.pid, tree.at[p], i).Done?
    ensures
      var r := Descend(m, p.pid, tree.at[p], i).value;
      && Inv(r.mem, t, roots) && Extends(tree, t, p.pid) && Preserved(m, r.mem, p.pid)
      && Child(p, i) in t.at && t.at[Child(p, i)] == r.table
      && (Child(p, i) in tree.at ==> r.mem == m && t == tree)
  {
    hide Descend, Linked, Grows, Links, Owned, Preserved, ClearTable;
    PlaceOwned(m, tree, p);
    if Child(p, i) in tree.at {
      DescendFollows(m, tree, p, i);
      ExtendsSelf(tree, p.pid);
      PreservedSelf(m, p.pid);
      t := tree;
    } else {
      var r := Descend(m, p.pid, tree.at[p], i).value;
      var e := Linked(m.ram[tree.at[p]][i], r.table);
      DescendGrows(m, tree, p, i);
      GrowKeepsInv(m, r.mem, tree, roots, p, i, r.table, e);
      GrowPreserves(m, r.mem, tree, p, i, r.table, e);
      GrowNew(m, r.mem, tree, p, i, r.table, e);
      t := Grow(tree, Child(p, i), r.table);
    }
  }

  // ---- the three upper levels ----

  ghost predicate Reached(m: Memory, tree: Tree, roots: map<nat, nat>, pid: nat, q: nat, level: nat, t: nat)
    requires level <= 4
  {
    Inv(m, tree, roots) && Node(pid, q, level) in tree.at && tree.at[Node(pid, q, level)] == t
  }

  lemma LevelStep(m: Memory, tree: Tree, roots: map<nat, nat>, pid: nat, q: nat, level: nat, table: nat) returns (t: Tree)
    requires 1 <= level <= 3 && q < PAGES && Reached(m, tree, roots, pid, q, level - 1, table)
    requires Descend(m, pid, table, Index(q, level)).Done?
    ensures
      var r := Descend(m, pid, table, Index(q, level)).value;
      && Reached(r.mem, t, roots, pid, q, level, r.table)
      && Extends(tree, t, pid) && Preserved(m, r.mem, pid)
      && (Node(pid, q, level) in tree.at ==> r.mem == m && t == tree)
  {
    hide Inv, Index, Descend, Preserved, Extends;
    NodeSteps(pid, q, level);
    t := DescendStep(m, tree, roots, Node(pid, q, level - 1), Index(q, level));
  }

  lemma ExtendsTwice(a: Tree, b: Tree, c: Tree, pid: nat)
    requires Extends(a, b, pid) && Extends(b, c, pid)
    ensures Extends(a, c, pid)
  {
  }

  lemma OwnerOk(m: Memory, tree: Tree, roots: map<nat, nat>, pid: nat)
    requires Inv(m, tree, roots) && pid in roots
    ensures pid >= FIRST_PID && roots[pid] < |m.frames| && m.frames[roots[pid]].pid == pid && m.frames[roots[pid]].table
    ensures Node(pid, 0, 0) == Root(pid) && Root(pid) in tree.at && tree.at[Root(pid)] == roots[pid]
  {
    assert RecordOk(m.frames[roots[pid]], tree.own[roots[pid]]);
  }

  lemma AncestorsIn(tree: Tree, pid: nat, q: nat, level: nat)
    requires TreeOk(tree) && 1 <= level <= 4 && q < PAGES && Node(pid, q, level) in tree.at
    ensures Node(pid, q, level - 1) in tree.at
  {
    NodeSteps(pid, q, level);
    assert Parent(Node(pid, q, level)) == Node(pid, q, level - 1);
  }

  lemma ReachStep(m: Memory, tree: Tree, roots: map<nat, nat>, pid: nat, q: nat) returns (t: Tree)
    requires Inv(m, tree, roots) && pid in roots && q < PAGES && Reach(m, pid, roots[pid], q).Done?
    ensures
      var r := Reach(m, pid, roots[pid], q).value;
      && Reached(r.mem, t, roots, pid, q, 3, r.table)
      && Extends(tree, t, pid) && Preserved(m, r.mem, pid)
      && (Node(pid, q, 3) in tree.at ==> r.mem == m && t == tree)
  {
    hide Links, Owned, Descend, Extends, Preserved, Index, Node, TreeOk, Wf, Rooted;
    OwnerOk(m, tree, roots, pid);
    NodeSteps(pid, q, 1);
    if Node(pid, q, 3) in tree.at {
      AncestorsIn(tree, pid, q, 3);
      AncestorsIn(tree, pid, q, 2);
    }
    var a := Descend(m, pid, roots[pid], Index(q, 1)).value;
    var t1 := LevelStep(m, tree, roots, pid, q, 1, roots[pid]);
    var b := Descend(a.mem, pid, a.table, Index(q, 2)).value;
    var t2 := LevelStep(a.mem, t1, roots, pid, q, 2, a.table);
    var c := Descend(b.mem, pid, b.table, Index(q, 3)).value;
    t := LevelStep(b.mem, t2, roots, pid, q, 3, b.table);
    ExtendsTwice(tree, t1, t2, pid);
    ExtendsTwice(tree, t2, t, pid);
    PreservedTwice(m, a.mem, b.mem, pid);
    PreservedTwice(m, b.mem, c.mem, pid);
  }

  // Once the table is there, the walk changes nothing.
  lemma ReachAgain(m: Memory, tree: Tree, roots: map<nat, nat>, pid: nat, q: nat, t: nat)
    requires pid in roots && q < PAGES && Reached(m, tree, roots, pid, q, 3, t)
    ensures Reach(m, pid, roots[pid], q) == Done(At(m, t))
  {
    OwnerOk(m, tree, roots, pid);
    AncestorsIn(tree, pid, q, 3);
    AncestorsIn(tree, pid, q, 2);
    NodeSteps(pid, q, 1);
    NodeSteps(pid, q, 2);
    NodeSteps(pid, q, 3);
    LookupStep(m, tree, Node(pid, q, 0), Index(q, 1));
    LookupStep(m, tree, Node(pid, q, 1), Index(q, 2));
    LookupStep(m, tree, Node(pid, q, 2), Index(q, 3));
  }

  // ---- the last level ----

  lemma MapGrows(m: Memory, tree: Tree, p: Place, q: nat, flags: nat)
    requires Wf(m) && TreeOk(tree) && Owned(m, tree) && Links(m, tree)
    requires p in tree.at && p.level == 3 && p.pid >= FIRST_PID && tree.at[p] < |m.ram|
    requires Child(p, Index(q, 4)) == Place(p.pid, 4, q)
    requires MapPage(m, p.pid, tree.at[p], q, flags).Done?
    ensures
      var r := MapPage(m, p.pid, tree.at[p], q, flags).value;
      && Place(p.pid, 4, q) !in tree.at
      && r.frames[r.last] == Frame(p.pid, false, q * PAGE_SIZE, flags)
      && Grows(m, r, tree, p, Index(q, 4), r.last, PageEntry(m.ram[tree.at[p]][Index(q, 4)], r.last, flags))
  {
    hide Index, Links, TreeOk, Owned;
    LinkedAt(m, tree, p, Index(q, 4));
    PlaceOwned(m, tree, p);
  }

  lemma LinkedAt(m: Memory, tree: Tree, p: Place, i: nat)
    requires Wf(m) && Links(m, tree)
    ensures EntryOkAt(m, tree, p, i)
  {
  }

  ghost predicate Mapped(m: Memory, tree: Tree, r: Memory, t: Tree, roots: map<nat, nat>, pid: nat, q: nat, flags: nat) {
    && Inv(r, t, roots) && Wf(m) && Preserved(m, r, pid)
    && t == Grow(tree, Place(pid, 4, q), r.last) && Place(pid, 4, q) !in tree.at
    && r.frames[r.last] == Frame(pid, false, q * PAGE_SIZE, flags) && m.frames[r.last].pid == FREE
  }

  lemma MapStep(m: Memory, tree: Tree, roots: map<nat, nat>, pid: nat, q: nat, table: nat, flags: nat) returns (t: Tree)
    requires q < PAGES && Reached(m, tree, roots, pid, q, 3, table) && MapPage(m, pid, table, q, flags).Done?
    ensures Mapped(m, tree, MapPage(m, pid, table, q, flags).value, t, roots, pid, q, flags)
  {
    hide MapPage, PageEntry, Index;
    NodeSteps(pid, q, 4);
    var r, p := MapPage(m, pid, table, q, flags).value, Node(pid, q, 3);
    assert RecordOk(m.frames[table], tree.own[table]);
    MapGrows(m, tree, p, q, flags);
    var e := PageEntry(m.ram[table][Index(q, 4)], r.last, flags);
    GrowKeepsInv(m, r, tree, roots, p, Index(q, 4), r.last, e);
    GrowPreserves(m, r, tree, p, Index(q, 4), r.last, e);
    t := Grow(tree, Place(pid, 4, q), r.last);
  }

  lemma MapPanics(m: Memory, tree: Tree, roots: map<nat, nat>, pid: nat, q: nat, table: nat, flags: nat)
    requires q < PAGES && Reached(m, tree, roots, pid, q, 3, table)
    ensures Place(pid, 4, q) in tree.at ==> MapPage(m, pid, table, q, flags) == Panic
  {
    NodeSteps(pid, q, 4);
    LookupStep(m, tree, Node(pid, q, 3), Index(q, 4));
  }
}
