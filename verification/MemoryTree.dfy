// The forest the page tables form.  Every frame a process owns is one node:
// a root, a table or a page.
module MemoryTree {
  import opened Common
  import opened MemoryState

  // A node of the table tree of a process: at level l its key holds the
  // leading l digits, base 512, of the page numbers below it.
  datatype Place = Place(pid: nat, level: nat, key: nat)

  ghost function Child(p: Place, i: nat): Place {
    Place(p.pid, p.level + 1, p.key * SLOTS + i)
  }

  ghost function Parent(p: Place): Place
    requires p.level > 0
  {
    Place(p.pid, p.level - 1, p.key / SLOTS)
  }

  ghost function Root(pid: nat): Place {
    Place(pid, 0, 0)
  }

  // The node at a level of the walk to page q.
  ghost function Node(pid: nat, q: nat, level: nat): Place
    requires level <= 4
  {
    Place(pid, level, q / Span(level))
  }

  lemma SpansNest(q: nat, level: nat)
    requires 1 <= level <= 4 && q < PAGES
    ensures q / Span(level) / SLOTS == q / Span(level - 1)
  {
    match level
    case 1 => assert q / 0x800_0000 < 512;
    case 2 => assert q / 0x4_0000 / 512 == q / 0x800_0000;
    case 3 => assert q / 512 / 512 == q / 0x4_0000;
    case 4 => assert q / 1 == q;
  }

  lemma NodeSteps(pid: nat, q: nat, level: nat)
    requires 1 <= level <= 4 && q < PAGES
    ensures Child(Node(pid, q, level - 1), Index(q, level)) == Node(pid, q, level)
    ensures Node(pid, q, 0) == Root(pid) && Node(pid, q, 4) == Place(pid, 4, q)
  {
    var k := q / Span(level);
    SpansNest(q, level);
    assert k / SLOTS * SLOTS + k % SLOTS == k;
    assert q / Span(0) == 0 && q / Span(4) == q;
  }

  lemma ChildInjective(p: Place, i: nat, q: Place, j: nat)
    requires i < SLOTS && j < SLOTS && Child(p, i) == Child(q, j)
    ensures p == q && i == j
  {
  }

  datatype Tree = Tree(at: map<Place, nat>, own: map<nat, Place>)

  // The two maps are inverse to each other, and the nodes are closed under
  // taking parents.
  ghost predicate TreeOk(tree: Tree) {
    && (forall f :: f in tree.own ==> tree.own[f] in tree.at && tree.at[tree.own[f]] == f)
    && (forall p :: p in tree.at ==> tree.at[p] in tree.own && tree.own[tree.at[p]] == p)
    && (forall p :: p in tree.at ==> p.level <= 4 && p.key < PAGES / Span(p.level))
    && (forall p :: p in tree.at && p.level > 0 ==> Parent(p) in tree.at)
  }

  // The record of a frame says which node it is.
  ghost predicate RecordOk(info: Frame, p: Place) {
    && info.pid == p.pid && p.pid >= FIRST_PID && info.table == (p.level < 4)
    && (p.level == 4 ==> info.vaddr == p.key * PAGE_SIZE)
  }

  ghost predicate Owned(m: Memory, tree: Tree) {
    && (forall f :: 0 <= f < |m.frames| && m.frames[f].pid >= FIRST_PID ==> f in tree.own)
    && (forall f :: f in tree.own ==> f < |m.frames| && RecordOk(m.frames[f], tree.own[f]))
  }

  // Entry i of the table at p: present exactly when there is a child, and then
  // it leads there.
  ghost predicate EntryLinks(m: Memory, tree: Tree, p: Place, i: nat)
    requires Wf(m) && p in tree.at && tree.at[p] < |m.ram| && i < SLOTS
  {
    var e := m.ram[tree.at[p]][i];
    && (e.present <==> Child(p, i) in tree.at)
    && (e.present ==> e.addr == tree.at[Child(p, i)])
    && (!e.present ==> e == EMPTY_ENTRY)
  }

  // A page may be written or executed exactly as its record says.
  ghost predicate Rights(m: Memory, tree: Tree, p: Place, i: nat)
    requires Wf(m) && p in tree.at && tree.at[p] < |m.ram| && i < SLOTS
  {
    var e := m.ram[tree.at[p]][i];
    p.level == 3 && e.present && e.addr < |m.frames| ==>
      && (e.writable <==> m.frames[e.addr].flags % 2 == 1)
      && (e.noExec <==> m.frames[e.addr].flags / 2 % 2 == 0)
  }

  ghost predicate EntryOkAt(m: Memory, tree: Tree, p: Place, i: nat)
    requires Wf(m)
  {
    p in tree.at && p.level < 4 && i < SLOTS ==>
      tree.at[p] < |m.ram| && EntryLinks(m, tree, p, i) && Rights(m, tree, p, i)
  }

  ghost predicate Links(m: Memory, tree: Tree)
    requires Wf(m)
  {
    forall p: Place, i: nat :: EntryOkAt(m, tree, p, i)
  }

  ghost predicate Rooted(roots: map<nat, nat>, tree: Tree) {
    && (forall pid :: pid in roots ==> Root(pid) in tree.at && tree.at[Root(pid)] == roots[pid])
    && (forall p :: p in tree.at ==> p.pid in roots)
  }

  ghost predicate Inv(m: Memory, tree: Tree, roots: map<nat, nat>) {
    Wf(m) && TreeOk(tree) && Owned(m, tree) && Links(m, tree) && Rooted(roots, tree)
  }

  // ---- a free frame becomes a new child ----

  ghost function Grow(tree: Tree, p: Place, f: nat): Tree {
    Tree(tree.at[p := f], tree.own[f := p])
  }

  ghost predicate Grows(m: Memory, r: Memory, tree: Tree, p: Place, i: nat, f: nat, e: Entry)
    requires Wf(m) && Wf(r)
  {
    && p in tree.at && p.level < 4 && i < SLOTS && tree.at[p] < |m.ram| && !m.ram[tree.at[p]][i].present
    && f < |m.frames| && m.frames[f].pid == FREE
    && |r.frames| == |m.frames| && r.frames == m.frames[f := r.frames[f]]
    && RecordOk(r.frames[f], Child(p, i)) && EntryOk(e) && e.present && e.addr == f
    && (p.level == 3 ==> (e.writable <==> r.frames[f].flags % 2 == 1) && (e.noExec <==> r.frames[f].flags / 2 % 2 == 0))
    && (tree.at[p] != f ==> r.ram[tree.at[p]] == m.ram[tree.at[p]][i := e])
    && (p.level < 3 ==> r.ram[f] == EmptyTable())
    && (forall g :: 0 <= g < |m.ram| && g != f && g != tree.at[p] ==> r.ram[g] == m.ram[g])
  }

  lemma ChildKey(p: Place, i: nat)
    requires p.level < 4 && p.key < PAGES / Span(p.level) && i < SLOTS
    ensures Child(p, i).key < PAGES / Span(p.level + 1)
  {
    assert p.level == 0 || p.level == 1 || p.level == 2 || p.level == 3;
  }

  lemma GrowNew(m: Memory, r: Memory, tree: Tree, p: Place, i: nat, f: nat, e: Entry)
    requires Wf(m) && Wf(r) && TreeOk(tree) && Owned(m, tree) && Links(m, tree) && Grows(m, r, tree, p, i, f, e)
    ensures f !in tree.own && Child(p, i) !in tree.at && tree.at[p] != f
    ensures Child(p, i).key < PAGES / Span(p.level + 1)
  {
    ChildKey(p, i);
    assert EntryOkAt(m, tree, p, i);
    assert RecordOk(m.frames[tree.at[p]], tree.own[tree.at[p]]);
  }

  lemma GrowTree(m: Memory, r: Memory, tree: Tree, p: Place, i: nat, f: nat, e: Entry)
    requires Wf(m) && Wf(r) && TreeOk(tree) && Owned(m, tree) && Links(m, tree) && Grows(m, r, tree, p, i, f, e)
    ensures TreeOk(Grow(tree, Child(p, i), f)) && Owned(r, Grow(tree, Child(p, i), f))
  {
    hide TreeOk, Owned, Links, EntryOk;
    GrowNew(m, r, tree, p, i, f, e);
    AddNode(tree, p, i, f);
    AddRecord(m, r, tree, Child(p, i), f);
  }

  lemma AddNode(tree: Tree, p: Place, i: nat, f: nat)
    requires TreeOk(tree) && p in tree.at && p.level < 4 && i < SLOTS && f !in tree.own && Child(p, i) !in tree.at
    requires Child(p, i).key < PAGES / Span(p.level + 1)
    ensures TreeOk(Grow(tree, Child(p, i), f))
  {
    hide Span;
    assert Parent(Child(p, i)) == p;
  }

  lemma AddRecord(m: Memory, r: Memory, tree: Tree, c: Place, f: nat)
    requires Owned(m, tree) && f < |m.frames| == |r.frames| && f !in tree.own
    requires r.frames == m.frames[f := r.frames[f]] && RecordOk(r.frames[f], c)
    ensures Owned(r, Grow(tree, c, f))
  {
  }

  lemma GrowEntry(m: Memory, r: Memory, tree: Tree, p: Place, i: nat, f: nat, e: Entry, q: Place, j: nat)
    requires Wf(m) && Wf(r) && TreeOk(tree) && Owned(m, tree) && Links(m, tree) && Grows(m, r, tree, p, i, f, e)
    requires q in tree.at && q.level < 4 && j < SLOTS
    ensures tree.at[q] < |r.ram| && q in Grow(tree, Child(p, i), f).at && Grow(tree, Child(p, i), f).at[q] == tree.at[q]
    ensures EntryLinks(r, Grow(tree, Child(p, i), f), q, j) && Rights(r, Grow(tree, Child(p, i), f), q, j)
  {
    GrowNew(m, r, tree, p, i, f, e);
    var c := Child(p, i);
    assert EntryOkAt(m, tree, q, j);
    if q == p && j == i {
      assert r.ram[tree.at[q]][j] == e;
    } else {
      assert Child(q, j) != c by { if Child(q, j) == c { ChildInjective(q, j, p, i); } }
      assert tree.at[q] != f;
      assert q != p ==> tree.at[q] != tree.at[p];
      assert r.ram[tree.at[q]][j] == m.ram[tree.at[q]][j];
    }
  }

  lemma GrowFresh(m: Memory, r: Memory, tree: Tree, p: Place, i: nat, f: nat, e: Entry, j: nat)
    requires Wf(m) && Wf(r) && TreeOk(tree) && Owned(m, tree) && Links(m, tree) && Grows(m, r, tree, p, i, f, e)
    requires p.level < 3 && j < SLOTS
    ensures EntryLinks(r, Grow(tree, Child(p, i), f), Child(p, i), j)
    ensures Rights(r, Grow(tree, Child(p, i), f), Child(p, i), j)
  {
    GrowNew(m, r, tree, p, i, f, e);
    var c := Child(p, i);
    assert Parent(Child(c, j)) == c;
    assert Child(c, j) !in tree.at;
  }

  lemma GrowRange(m: Memory, r: Memory, tree: Tree, p: Place, i: nat, f: nat, e: Entry)
    requires Wf(m) && Wf(r) && Grows(m, r, tree, p, i, f, e)
    ensures f < |r.ram| && p in tree.at && p.level < 4 && i < SLOTS
  {
  }

  lemma GrowKeepsInv(m: Memory, r: Memory, tree: Tree, roots: map<nat, nat>, p: Place, i: nat, f: nat, e: Entry)
    requires Inv(m, tree, roots) && Wf(r) && Grows(m, r, tree, p, i, f, e)
    ensures Inv(r, Grow(tree, Child(p, i), f), roots)
  {
    hide TreeOk, Owned, Links, Grows;
    var c := Child(p, i);
    var t := Grow(tree, c, f);
    GrowTree(m, r, tree, p, i, f, e);
    GrowRooted(m, r, tree, roots, p, i, f, e);
    GrowLinks(m, r, tree, p, i, f, e);
  }

  lemma GrowRooted(m: Memory, r: Memory, tree: Tree, roots: map<nat, nat>, p: Place, i: nat, f: nat, e: Entry)
    requires Wf(m) && Wf(r) && TreeOk(tree) && Owned(m, tree) && Links(m, tree) && Grows(m, r, tree, p, i, f, e)
    requires Rooted(roots, tree)
    ensures Rooted(roots, Grow(tree, Child(p, i), f))
  {
    hide TreeOk, Owned, Links;
    GrowNew(m, r, tree, p, i, f, e);
  }

  lemma GrowLinks(m: Memory, r: Memory, tree: Tree, p: Place, i: nat, f: nat, e: Entry)
    requires Wf(m) && Wf(r) && TreeOk(tree) && Owned(m, tree) && Links(m, tree) && Grows(m, r, tree, p, i, f, e)
    ensures Links(r, Grow(tree, Child(p, i), f))
  {
    hide TreeOk, Grows;
    var c := Child(p, i);
    var t := Grow(tree, c, f);
    GrowNew(m, r, tree, p, i, f, e);
    GrowRange(m, r, tree, p, i, f, e);
    forall q: Place, j: nat
      ensures EntryOkAt(r, t, q, j)
    {
      if q in t.at && q.level < 4 && j < SLOTS {
        if q == c {
          GrowFresh(m, r, tree, p, i, f, e, j);
        } else {
          GrowEntry(m, r, tree, p, i, f, e, q, j);
        }
      }
    }
  }

  // ---- translation follows the tree ----

  lemma LookupStep(m: Memory, tree: Tree, p: Place, i: nat)
    requires Wf(m) && TreeOk(tree) && Owned(m, tree) && Links(m, tree) && p.level < 4 && i < SLOTS
    ensures p in tree.at ==>
      && tree.at[p] < |m.ram| && (m.ram[tree.at[p]][i].present <==> Child(p, i) in tree.at)
      && (Child(p, i) in tree.at ==> m.ram[tree.at[p]][i].addr == tree.at[Child(p, i)])
    ensures p !in tree.at ==> Child(p, i) !in tree.at
  {
    if p in tree.at {
      assert EntryOkAt(m, tree, p, i);
    } else {
      assert Parent(Child(p, i)) == p;
    }
  }

  lemma {:induction false} WalkIsLookup(m: Memory, tree: Tree, roots: map<nat, nat>, pid: nat, q: nat, level: nat)
    requires Inv(m, tree, roots) && pid in roots && q < PAGES && level <= 4
    ensures Walk(m, roots[pid], q, level) ==
            if Node(pid, q, level) in tree.at then Some(tree.at[Node(pid, q, level)]) else None
  {
    hide TreeOk, Links, Owned, Index, Child, Node;
    if level == 0 {
      NodeSteps(pid, q, 1);
    } else {
      WalkIsLookup(m, tree, roots, pid, q, level - 1);
      NodeSteps(pid, q, level);
      assert Node(pid, q, level - 1).level == level - 1 by { NodeLevel(pid, q, level - 1); }
      LookupStep(m, tree, Node(pid, q, level - 1), Index(q, level));
    }
  }

  lemma NodeLevel(pid: nat, q: nat, level: nat)
    requires level <= 4
    ensures Node(pid, q, level).level == level && Node(pid, q, level).pid == pid
  {
  }
}
