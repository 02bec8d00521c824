// When allocation succeeds.
module MemoryRoom {
  import opened Common
  import opened MemoryState
  import opened MemoryTree
  import opened MemoryCreate
  import opened MemoryPages

  // f comes before e when the frames are visited cyclically from j.
  ghost predicate CyclicallyBefore(j: nat, f: nat, e: nat) {
    if j <= f then e < j || f < e else e < j && f < e
  }

  lemma {:induction false} ScanFindsFirst(frames: seq<Frame>, j: nat, left: nat)
    requires j < |frames| && left <= |frames|
    ensures
      var r := Scan(frames, j, left);
      && (r.Some? ==> forall f :: 0 <= f < |frames| && CyclicallyBefore(j, f, r.value) ==> frames[f].pid != FREE)
      && (r.None? ==> forall f :: 0 <= f < |frames| && (j <= f < j + left || f < j + left - |frames|) ==> frames[f].pid != FREE)
      && (r.Some? ==> j <= r.value < j + left || r.value < j + left - |frames|)
    decreases left
  {
    if left > 0 && frames[j].pid != FREE {
      ScanFindsFirst(frames, if j + 1 == |frames| then 0 else j + 1, left - 1);
    }
  }

  // The first free frame after the last one handed out, if the start is in the
  // table; with the last frame handed out, allocation fails whatever is free.
  lemma AllocateTakesNextFree(m: Memory, pid: nat)
    requires Wf(m)
    ensures Allocate(m, pid).Done? <==>
      m.last + 1 < |m.frames| && exists f :: 0 <= f < |m.frames| && m.frames[f].pid == FREE
    ensures Allocate(m, pid) == Stray <==> m.last + 1 == |m.frames|
    ensures Allocate(m, pid).Done? ==>
      forall f :: 0 <= f < |m.frames| && CyclicallyBefore(m.last + 1, f, Allocate(m, pid).value.last) ==> m.frames[f].pid != FREE
  {
    if m.last + 1 < |m.frames| {
      ScanFindsFirst(m.frames, m.last + 1, |m.frames|);
    }
  }

  // Two frames for user processes: the second allocation takes the last frame
  // of the table, and the third one leaves the table although a frame is free.
  lemma AllocatorLeavesTable(m: Memory)
    requires Wf(m) && |m.frames| == 3 && m.last == 0
    requires m.frames[0].pid == 0 && m.frames[1].pid == FREE && m.frames[2].pid == FREE
    ensures
      var a := Allocate(m, 2);
      var b := if a.Done? then Allocate(a.value, 3) else Panic;
      && b.Done? && FreeProcess(b.value, 2).frames[1].pid == FREE
      && Allocate(FreeProcess(b.value, 2), 4) == Stray
  {
  }

  // ---- enough room ----

  ghost function FreeFrames(m: Memory): set<nat> {
    set f: nat | f < |m.frames| && m.frames[f].pid == FREE
  }

  // At least k free frames, and a last frame that is never handed out.
  ghost predicate Room(m: Memory, k: nat) {
    && m.frames != [] && m.last + 1 < |m.frames| && m.frames[|m.frames| - 1].pid != FREE
    && |FreeFrames(m)| >= k
  }

  lemma TakeRoom(m: Memory, r: Memory, f: nat, k: nat)
    requires Room(m, k + 1) && f < |m.frames| && m.frames[f].pid == FREE
    requires |r.frames| == |m.frames| && r.frames == m.frames[f := r.frames[f]] && r.frames[f].pid != FREE && r.last == f
    ensures Room(r, k)
  {
    assert FreeFrames(r) == FreeFrames(m) - {f};
  }

  lemma AllocateHasRoom(m: Memory, pid: nat, k: nat)
    requires Wf(m) && Room(m, k + 1) && pid != FREE
    ensures Allocate(m, pid).Done?
  {
    AllocateTakesNextFree(m, pid);
    assert FreeFrames(m) != {};
    var f :| f in FreeFrames(m);
  }

  lemma DescendHasRoom(m: Memory, pid: nat, t: nat, i: nat, k: nat)
    requires Wf(m) && Room(m, k + 1) && pid != FREE && t < |m.ram| && i < SLOTS
    ensures Descend(m, pid, t, i).Done? && Room(Descend(m, pid, t, i).value.mem, k)
  {
    if !m.ram[t][i].present {
      AllocateHasRoom(m, pid, k);
      var r := Descend(m, pid, t, i).value;
      TakeRoom(m, r.mem, r.table, k);
    }
  }

  lemma LevelHasRoom(m: Memory, tree: Tree, roots: map<nat, nat>, pid: nat, q: nat, level: nat, table: nat, k: nat) returns (t: Tree)
    requires 1 <= level <= 3 && q < PAGES && Reached(m, tree, roots, pid, q, level - 1, table)
    requires Room(m, k + 1)
    ensures Descend(m, pid, table, Index(q, level)).Done?
    ensures
      var r := Descend(m, pid, table, Index(q, level)).value;
      Reached(r.mem, t, roots, pid, q, level, r.table) && Room(r.mem, k)
  {
    hide Index, Descend, Room;
    PlaceOwned(m, tree, Node(pid, q, level - 1));
    DescendHasRoom(m, pid, table, Index(q, level), k);
    t := LevelStep(m, tree, roots, pid, q, level, table);
  }

  lemma ReachHasRoom(m: Memory, tree: Tree, roots: map<nat, nat>, pid: nat, q: nat, k: nat)
    requires Inv(m, tree, roots) && pid in roots && q < PAGES && Room(m, k + 3)
    ensures Reach(m, pid, roots[pid], q).Done? && Room(Reach(m, pid, roots[pid], q).value.mem, k)
  {
    hide Index, Descend, Room, Links, TreeOk, Owned;
    OwnerOk(m, tree, roots, pid);
    var a := Descend(m, pid, roots[pid], Index(q, 1));
    var t1 := LevelHasRoom(m, tree, roots, pid, q, 1, roots[pid], k + 2);
    var b := Descend(a.value.mem, pid, a.value.table, Index(q, 2));
    var t2 := LevelHasRoom(a.value.mem, t1, roots, pid, q, 2, a.value.table, k + 1);
    var t3 := LevelHasRoom(b.value.mem, t2, roots, pid, q, 3, b.value.table, k);
  }

  lemma MapHasRoom(m: Memory, tree: Tree, roots: map<nat, nat>, pid: nat, q: nat, table: nat, flags: nat, k: nat)
    requires q < PAGES && Reached(m, tree, roots, pid, q, 3, table) && Room(m, k + 1)
    requires Place(pid, 4, q) !in tree.at
    ensures MapPage(m, pid, table, q, flags).Done? && Room(MapPage(m, pid, table, q, flags).value, k)
  {
    hide Index, Room;
    NodeSteps(pid, q, 4);
    LookupStep(m, tree, Node(pid, q, 3), Index(q, 4));
    PlaceOwned(m, tree, Node(pid, q, 3));
    AllocateHasRoom(m, pid, k);
    var r := MapPage(m, pid, table, q, flags).value;
    TakeRoom(m, r, r.last, k);
  }

  // With room for three tables and the page, a page can be created exactly
  // when it does not exist.
  lemma CreatePageSucceeds(m: Memory, roots: map<nat, nat>, pid: nat, q: nat, flags: nat, k: nat)
    requires MemoryOk(m, roots) && pid in roots && q < PAGES && Room(m, k + 4)
    ensures CreatePage(m, pid, roots[pid], q * PAGE_SIZE, flags).Done? <==> Walk(m, roots[pid], q, 4) == None
    ensures CreatePage(m, pid, roots[pid], q * PAGE_SIZE, flags).Done? ==>
      Room(CreatePage(m, pid, roots[pid], q * PAGE_SIZE, flags).value, k)
  {
    hide Links, Owned, Rooted, TreeOk, Reach, MapPage, Walk, Room;
    if Walk(m, roots[pid], q, 4).Some? {
      MappedPagePanics(m, roots, pid, q, flags);
    } else {
      var tree: Tree :| Inv(m, tree, roots);
      WalkToPage(m, tree, roots, pid, q);
      ReachHasRoom(m, tree, roots, pid, q, k + 1);
      var a := Reach(m, pid, roots[pid], q).value;
      var t := ReachStep(m, tree, roots, pid, q);
      MapHasRoom(a.mem, t, roots, pid, q, a.table, flags, k);
    }
  }

  ghost predicate Unmapped(m: Memory, root: nat, q: nat, end: nat)
    requires Wf(m)
  {
    forall p :: q <= p < end ==> Walk(m, root, p, 4) == None
  }

  lemma OthersUnmapped(m: Memory, roots: map<nat, nat>, pid: nat, q: nat, end: nat, flags: nat)
    requires MemoryOk(m, roots) && pid in roots && q < end <= PAGES && Unmapped(m, roots[pid], q, end)
    requires CreatePage(m, pid, roots[pid], q * PAGE_SIZE, flags).Done?
    ensures Unmapped(CreatePage(m, pid, roots[pid], q * PAGE_SIZE, flags).value, roots[pid], q + 1, end)
  {
    hide CreatePage, Inv, Walk;
    var r := CreatePage(m, pid, roots[pid], q * PAGE_SIZE, flags).value;
    forall p | q + 1 <= p < end
      ensures Walk(r, roots[pid], p, 4) == None
    {
      CreatePageMapsOne(m, roots, pid, q, flags, pid, p);
    }
  }

  // A range of pages that do not exist can be created, and then each of its
  // pages, and no other page of any process, is new.
  lemma {:induction false} PageByPageMapsRange(m: Memory, roots: map<nat, nat>, pid: nat, q: nat, end: nat, flags: nat, id: nat, p: nat)
    requires MemoryOk(m, roots) && pid in roots && end <= PAGES && id in roots && p < PAGES
    requires PageByPage(m, pid, roots[pid], q, end, flags).Done?
    ensures
      var r := PageByPage(m, pid, roots[pid], q, end, flags).value;
      && MemoryOk(r, roots) && Preserved(m, r, pid)
      && (id == pid && q <= p < end ==> Walk(m, roots[id], p, 4) == None && Walk(r, roots[id], p, 4).Some?)
      && (!(id == pid && q <= p < end) ==> Walk(r, roots[id], p, 4) == Walk(m, roots[id], p, 4))
    decreases end - q
  {
    hide CreatePage, Walk, Preserved, Inv;
    if q < end {
      var a := CreatePage(m, pid, roots[pid], q * PAGE_SIZE, flags).value;
      CreatePageMapsOne(m, roots, pid, q, flags, id, p);
      PageByPageMapsRange(a, roots, pid, q + 1, end, flags, id, p);
      assert pid >= FIRST_PID by { PidOk(m, roots, pid); }
      PreservedTwice(m, a, PageByPage(a, pid, roots[pid], q + 1, end, flags).value, pid);
    } else {
      PreservedSelf(m, pid);
    }
  }

  lemma PidOk(m: Memory, roots: map<nat, nat>, pid: nat)
    requires MemoryOk(m, roots) && pid in roots
    ensures pid >= FIRST_PID
  {
    var tree: Tree :| Inv(m, tree, roots);
    OwnerOk(m, tree, roots, pid);
  }

  // With four free frames for each page of a range none of which is mapped, the
  // range is created; what room there was beyond that is left.
  lemma {:induction false} PageByPageSucceeds(m: Memory, roots: map<nat, nat>, pid: nat, q: nat, end: nat, flags: nat, k: nat)
    requires MemoryOk(m, roots) && pid in roots && q <= end <= PAGES
    requires Room(m, 4 * (end - q) + k) && Unmapped(m, roots[pid], q, end)
    ensures PageByPage(m, pid, roots[pid], q, end, flags).Done?
    ensures Room(PageByPage(m, pid, roots[pid], q, end, flags).value, k)
    decreases end - q
  {
    hide CreatePage, Walk, Preserved, Room, Inv;
    if q < end {
      CreatePageSucceeds(m, roots, pid, q, flags, 4 * (end - q - 1) + k);
      assert Walk(m, roots[pid], q, 4) == None;
      OthersUnmapped(m, roots, pid, q, end, flags);
      CreatePageMapsOne(m, roots, pid, q, flags, pid, q);
      PageByPageSucceeds(CreatePage(m, pid, roots[pid], q * PAGE_SIZE, flags).value, roots, pid, q + 1, end, flags, k);
    }
  }
}
