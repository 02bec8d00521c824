// Physical memory as the kernel sees it: a table with one record per frame and
// the frames themselves, in which page tables and user pages live side by side.
module MemoryState {
  import opened Common

  // The pid field of a frame: 0 kernel, 1 free, otherwise the owner.
  const FREE: nat := 1
  const FIRST_PID: nat := 2
  const SLOTS: nat := 512
  const PAGE_SIZE: nat := 4096
  // Page numbers below this one have a canonical address below 2^48.
  const PAGES: nat := 0x10_0000_0000
  const ADDR_LIMIT: nat := 0x100_0000_0000
  const WORD_LIMIT: nat := 0x1_0000_0000_0000_0000
  const FLAG_WRITE: nat := 1

  // A 64-bit word, by the fields a page-table entry gives to its bits.
  datatype Entry = Entry(present: bool, writable: bool, control: nat, avl: nat, addr: nat, available: nat, noExec: bool)

  predicate EntryOk(e: Entry) {
    e.control < 128 && e.avl < 8 && e.addr < ADDR_LIMIT && e.available < 2048
  }

  datatype Frame = Frame(pid: nat, table: bool, vaddr: nat, flags: nat)

  datatype Memory = Memory(frames: seq<Frame>, ram: seq<seq<Entry>>, last: nat)

  // Stray: an access outside the frame table or the memory it describes.
  datatype Outcome<+T> = Done(value: T) | Panic | Stray {
    predicate IsFailure() { !Done? }

    function PropagateFailure<U>(): Outcome<U>
      requires IsFailure()
    {
      if Panic? then Panic else Stray
    }

    function Extract(): T
      requires !IsFailure()
    {
      value
    }
  }

  predicate TableOk(t: seq<Entry>) {
    |t| == SLOTS && forall i :: 0 <= i < SLOTS ==> EntryOk(t[i])
  }

  predicate Wf(m: Memory) {
    && |m.frames| == |m.ram| < ADDR_LIMIT
    && m.last < |m.frames|
    && forall f :: 0 <= f < |m.ram| ==> TableOk(m.ram[f])
  }

  // ---- the frame allocator ----

  // Frames are looked at in cyclic order, `left` of them, starting with j.
  function Scan(frames: seq<Frame>, j: nat, left: nat): (r: Option<nat>)
    requires j < |frames|
    ensures r.Some? ==> r.value < |frames| && frames[r.value].pid == FREE
    decreases left
  {
    if left == 0 then None
    else if frames[j].pid == FREE then Some(j)
    else Scan(frames, if j + 1 == |frames| then 0 else j + 1, left - 1)
  }

  // memory_allocate_page; the frame handed out becomes m.last.  The starting
  // index is not wrapped, so after the last frame the scan leaves the table.
  function Allocate(m: Memory, pid: nat): (r: Outcome<Memory>)
    requires Wf(m)
    ensures r.Done? ==>
      && r.value.last < |m.frames| && m.frames[r.value.last].pid == FREE
      && r.value == Taken(m, r.value.last, m.frames[r.value.last].(pid := pid))
  {
    if m.last + 1 == |m.frames| then Stray
    else
      var f := Scan(m.frames, m.last + 1, |m.frames|);
      if f.None? then Panic else Done(Taken(m, f.value, m.frames[f.value].(pid := pid)))
  }

  function Taken(m: Memory, f: nat, info: Frame): (r: Memory)
    requires f < |m.frames|
    ensures Wf(m) ==> Wf(r)
  {
    m.(frames := m.frames[f := info], last := f)
  }

  // memory_allocate_page_to_virtual_table
  function AllocateTable(m: Memory, pid: nat): (r: Outcome<Memory>)
    requires Wf(m)
    ensures r.Done? ==>
      && r.value.last < |m.frames| && m.frames[r.value.last].pid == FREE
      && r.value == Taken(m, r.value.last, m.frames[r.value.last].(pid := pid, table := true))
  {
    var a :- Allocate(m, pid);
    Done(Taken(a, a.last, a.frames[a.last].(table := true)))
  }

  // memory_allocate_page_to_user_space
  function AllocatePage(m: Memory, pid: nat, vaddr: nat, flags: nat): (r: Outcome<Memory>)
    requires Wf(m)
    ensures r.Done? ==>
      && r.value.last < |m.frames| && m.frames[r.value.last].pid == FREE
      && r.value == Taken(m, r.value.last, Frame(pid, false, vaddr, flags))
  {
    var a :- Allocate(m, pid);
    Done(Taken(a, a.last, a.frames[a.last].(table := false, vaddr := vaddr, flags := flags)))
  }

  // ---- page tables ----

  const EMPTY_ENTRY: Entry := Entry(false, false, 0, 0, 0, 0, true)

  function EmptyTable(): (t: seq<Entry>)
    ensures TableOk(t) && forall i :: 0 <= i < SLOTS ==> t[i] == EMPTY_ENTRY
  {
    seq(SLOTS, _ => EMPTY_ENTRY)
  }

  // An entry made to lead to frame f; the other bits stay.
  function Linked(e: Entry, f: nat): Entry {
    e.(addr := f, present := true, avl := e.avl / 2 * 2 + 1)
  }

  function PageEntry(e: Entry, f: nat, flags: nat): Entry {
    Linked(e, f).(writable := e.writable || flags % 2 == 1, noExec := e.noExec && flags / 2 % 2 == 0)
  }

  function SetEntry(m: Memory, t: nat, i: nat, e: Entry): (r: Memory)
    requires Wf(m) && t < |m.ram| && i < SLOTS && EntryOk(e)
    ensures Wf(r)
  {
    m.(ram := m.ram[t := m.ram[t][i := e]])
  }

  // memory_page_table_initialize
  function ClearTable(m: Memory, t: nat): (r: Memory)
    requires Wf(m) && t < |m.ram|
    ensures Wf(r)
  {
    m.(ram := m.ram[t := EmptyTable()])
  }

  // memory_initialize_table: the root of a process; it becomes m.last.
  function NewTable(m: Memory, pid: nat): (r: Outcome<Memory>)
    requires Wf(m)
    ensures r.Done? ==> Wf(r.value) && |r.value.frames| == |m.frames|
  {
    var a :- AllocateTable(m, pid);
    Done(ClearTable(a, a.last))
  }

  datatype At = At(mem: Memory, table: nat)

  // One level of the walk: follow entry i of table t, or give it a new table.
  function Descend(m: Memory, pid: nat, t: nat, i: nat): (r: Outcome<At>)
    requires Wf(m) && i < SLOTS
    ensures r.Done? ==> Wf(r.value.mem) && |r.value.mem.frames| == |m.frames|
  {
    if t >= |m.ram| then Stray
    else if m.ram[t][i].present then Done(At(m, m.ram[t][i].addr))
    else
      var a :- AllocateTable(m, pid);
      Done(At(ClearTable(SetEntry(a, t, i, Linked(a.ram[t][i], a.last)), a.last), a.last))
  }

  // The number of level-l tables is 512^l: a page belongs to the table with
  // the leading digits of its number.
  function Span(level: nat): (r: nat)
    requires level <= 4
    ensures r > 0
  {
    match level
    case 0 => PAGES
    case 1 => 0x800_0000
    case 2 => 0x4_0000
    case 3 => 512
    case 4 => 1
  }

  // The index used in the table of the level above, (vaddr >> s) & 0x1FF.
  function Index(q: nat, level: nat): (i: nat)
    requires 1 <= level <= 4
    ensures i < SLOTS
  {
    q / Span(level) % SLOTS
  }

  // The three upper levels of the walk to the table that holds page q.
  function Reach(m: Memory, pid: nat, root: nat, q: nat): (r: Outcome<At>)
    requires Wf(m)
    ensures r.Done? ==> Wf(r.value.mem) && |r.value.mem.frames| == |m.frames|
  {
    var a :- Descend(m, pid, root, Index(q, 1));
    var b :- Descend(a.mem, pid, a.table, Index(q, 2));
    Descend(b.mem, pid, b.table, Index(q, 3))
  }

  // The last level: page q gets a frame, which becomes m.last.
  function MapPage(m: Memory, pid: nat, t: nat, q: nat, flags: nat): (r: Outcome<Memory>)
    requires Wf(m)
    ensures r.Done? ==> Wf(r.value) && |r.value.frames| == |m.frames|
  {
    if t >= |m.ram| then Stray
    else if m.ram[t][Index(q, 4)].present then Panic
    else
      var a :- AllocatePage(m, pid, q * PAGE_SIZE, flags);
      Done(SetEntry(a, t, Index(q, 4), PageEntry(a.ram[t][Index(q, 4)], a.last, flags)))
  }

  // memory_create_page
  function CreatePage(m: Memory, pid: nat, root: nat, vaddr: nat, flags: nat): (r: Outcome<Memory>)
    requires Wf(m)
    ensures r.Done? ==> Wf(r.value) && |r.value.frames| == |m.frames|
  {
    var a :- Reach(m, pid, root, vaddr / PAGE_SIZE);
    MapPage(a.mem, pid, a.table, vaddr / PAGE_SIZE, flags)
  }

  // ---- the batched mapper ----

  datatype Filled = Filled(mem: Memory, next: nat)

  // Its inner loop: pages q up to `end` go into table t until t is full.
  function Fill(m: Memory, pid: nat, t: nat, q: nat, end: nat, flags: nat): (r: Outcome<Filled>)
    requires Wf(m) && q < end
    ensures r.Done? ==> Wf(r.value.mem) && |r.value.mem.frames| == |m.frames| && q < r.value.next <= end
    decreases end - q
  {
    var a :- MapPage(m, pid, t, q, flags);
    if q + 1 < end && Index(q, 4) + 1 < SLOTS then Fill(a, pid, t, q + 1, end, flags)
    else Done(Filled(a, q + 1))
  }

  // Pages q up to `end`, one walk for each table.
  function Batch(m: Memory, pid: nat, root: nat, q: nat, end: nat, flags: nat): (r: Outcome<Memory>)
    requires Wf(m)
    ensures r.Done? ==> Wf(r.value) && |r.value.frames| == |m.frames|
    decreases end - q
  {
    if q >= end then Done(m)
    else
      var a :- Reach(m, pid, root, q);
      var b :- Fill(a.mem, pid, a.table, q, end, flags);
      Batch(b.mem, pid, root, b.next, end, flags)
  }

  // memory_create_n_pages
  function CreatePages(m: Memory, pid: nat, root: nat, from: nat, to: nat, flags: nat): (r: Outcome<Memory>)
    requires Wf(m)
    ensures r.Done? ==> Wf(r.value) && |r.value.frames| == |m.frames|
  {
    Batch(m, pid, root, from / PAGE_SIZE, to / PAGE_SIZE + 1, flags)
  }

  // ---- translation ----

  // The frame the first `level` steps of the walk to page q lead to.
  function Walk(m: Memory, root: nat, q: nat, level: nat): (r: Option<nat>)
    requires Wf(m) && level <= 4
  {
    if level == 0 then Some(root)
    else
      var t := Walk(m, root, q, level - 1);
      if t.None? || t.value >= |m.ram| then None
      else
        var e := m.ram[t.value][Index(q, level)];
        if e.present then Some(e.addr) else None
  }

  // memory_get_physical_addr_from_user_space
  function Translate(m: Memory, root: nat, vaddr: nat): (r: Option<nat>)
    requires Wf(m)
  {
    var f := Walk(m, root, vaddr / PAGE_SIZE, 4);
    if f.None? then None else Some(f.value * PAGE_SIZE + vaddr % PAGE_SIZE)
  }

  // ---- whole processes ----

  // memory_copy_virtual_memory_space, from frame i on
  function CopySpace(m: Memory, child: nat, root: nat, parent: nat, i: nat): (r: Outcome<Memory>)
    requires Wf(m) && i <= |m.frames|
    ensures r.Done? ==> Wf(r.value) && |r.value.frames| == |m.frames|
    decreases |m.frames| - i
  {
    if i == |m.frames| then Done(m)
    else if m.frames[i].pid == parent && !m.frames[i].table then
      var a :- CreatePage(m, child, root, m.frames[i].vaddr, m.frames[i].flags);
      CopySpace(CopyFrame(a, a.last, i), child, root, parent, i + 1)
    else CopySpace(m, child, root, parent, i + 1)
  }

  function CopyFrame(m: Memory, to: nat, from: nat): (r: Memory)
    requires Wf(m) && to < |m.ram| && from < |m.ram|
    ensures Wf(r)
  {
    m.(ram := m.ram[to := m.ram[from]])
  }

  // memory_free_process
  function FreeProcess(m: Memory, pid: nat): (r: Memory)
    requires Wf(m)
    ensures Wf(r)
  {
    m.(frames := seq(|m.frames|, f requires 0 <= f < |m.frames| =>
         if m.frames[f].pid == pid then m.frames[f].(pid := FREE) else m.frames[f]))
  }
}
