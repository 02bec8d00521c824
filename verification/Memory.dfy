// kernel/src_kernel/memory.c, step by step, over the frame table and the
// memory it describes.
module Memory {
  import opened Common
  import opened MemoryState
  import opened MemoryTree
  import opened MemoryPages
  import opened MemoryBytes
  import opened MemoryCopy
  import opened MemoryHeap

  // A method that ends with outcome o and memory m did what the specification
  // says.  When the kernel stops, what is left in memory does not matter.
  ghost predicate Did(o: Outcome<nat>, m: MemoryState.Memory, spec: Outcome<MemoryState.Memory>) {
    match spec
    case Done(r) => o == Done(r.last) && m == r
    case Panic => o == Panic
    case Stray => o == Stray
  }

  class PhysicalMemory {
    const frames: array<Frame>
    const ram: array<seq<Entry>>
    var last: nat

    ghost function View(): MemoryState.Memory
      reads this, frames, ram
    {
      MemoryState.Memory(frames[..], ram[..], last)
    }

    ghost predicate Valid()
      reads this, frames, ram
    {
      Wf(View())
    }

    // ---- allocation ----

    // memory_allocate_page
    method Allocate(pid: nat) returns (o: Outcome<nat>)
      requires Valid()
      modifies this, frames
      ensures Did(o, View(), MemoryState.Allocate(old(View()), pid))
    {
      var i: nat, j: nat := 0, last + 1;
      if j == frames.Length { return Stray; }
      while i < frames.Length
        invariant i <= frames.Length && j < frames.Length
        invariant Scan(frames[..], last + 1, frames.Length) == Scan(frames[..], j, frames.Length - i)
      {
        if frames[j].pid == FREE {
          frames[j] := frames[j].(pid := pid);
          last := j;
          return Done(j);
        }
        j := j + 1;
        if j == frames.Length { j := 0; }
        i := i + 1;
      }
      return Panic;
    }

    // memory_allocate_page_to_virtual_table
    method AllocateTable(pid: nat) returns (o: Outcome<nat>)
      requires Valid()
      modifies this, frames
      ensures Did(o, View(), MemoryState.AllocateTable(old(View()), pid))
    {
      o := Allocate(pid);
      if o.Done? {
        frames[o.value] := frames[o.value].(table := true);
      }
    }

    // memory_allocate_page_to_user_space
    method AllocatePage(pid: nat, vaddr: nat, flags: nat) returns (o: Outcome<nat>)
      requires Valid()
      modifies this, frames
      ensures Did(o, View(), MemoryState.AllocatePage(old(View()), pid, vaddr, flags))
    {
      o := Allocate(pid);
      if o.Done? {
        frames[o.value] := frames[o.value].(table := false, vaddr := vaddr, flags := flags);
      }
    }

    // memory_page_table_initialize
    method InitializeTable(t: nat)
      requires Valid() && t < ram.Length
      modifies ram
      ensures View() == ClearTable(old(View()), t)
    {
      var i := 0;
      while i < SLOTS
        invariant i <= SLOTS && |ram[t]| == SLOTS
        invariant forall k :: 0 <= k < i ==> ram[t][k] == EMPTY_ENTRY
        invariant forall f :: 0 <= f < ram.Length && f != t ==> ram[f] == old(ram[f])
      {
        ram[t] := ram[t][i := EMPTY_ENTRY];
        i := i + 1;
      }
      assert ram[t] == EmptyTable();
      assert ram[..] == old(ram[..])[t := EmptyTable()];
    }

    // memory_initialize_table
    method NewTable(pid: nat) returns (o: Outcome<nat>)
      requires Valid()
      modifies this, frames, ram
      ensures Did(o, View(), MemoryState.NewTable(old(View()), pid))
    {
      o := AllocateTable(pid);
      if o.Done? { InitializeTable(o.value); }
    }

    // ---- mapping ----

    // One of the upper levels of the walk.
    method Descend(pid: nat, t: nat, i: nat) returns (o: Outcome<nat>)
      requires Valid() && i < SLOTS
      modifies this, frames, ram
      ensures
        match MemoryState.Descend(old(View()), pid, t, i)
        case Done(r) => o == Done(r.table) && View() == r.mem
        case Panic => o == Panic
        case Stray => o == Stray
    {
      if t >= ram.Length { return Stray; }
      if ram[t][i].present { return Done(ram[t][i].addr); }
      o := AllocateTable(pid);
      if o.Done? {
        ram[t] := ram[t][i := Linked(ram[t][i], o.value)];
        InitializeTable(o.value);
      }
    }

    // The walk to the table that holds page q.
    method Reach(pid: nat, root: nat, q: nat) returns (o: Outcome<nat>)
      requires Valid()
      modifies this, frames, ram
      ensures
        match MemoryState.Reach(old(View()), pid, root, q)
        case Done(r) => o == Done(r.table) && View() == r.mem
        case Panic => o == Panic
        case Stray => o == Stray
    {
      o := Descend(pid, root, Index(q, 1));
      if o.Done? {
        o := Descend(pid, o.value, Index(q, 2));
        if o.Done? {
          o := Descend(pid, o.value, Index(q, 3));
        }
      }
    }

    // The last level, for one page.
    method MapPage(pid: nat, t: nat, q: nat, flags: nat) returns (o: Outcome<nat>)
      requires Valid()
      modifies this, frames, ram
      ensures Did(o, View(), MemoryState.MapPage(old(View()), pid, t, q, flags))
    {
      var i := Index(q, 4);
      if t >= ram.Length { return Stray; }
      if ram[t][i].present { return Panic; }
      o := AllocatePage(pid, q * PAGE_SIZE, flags);
      if o.Done? {
        ghost var e := ram[t][i];
        ram[t] := ram[t][i := Linked(ram[t][i], o.value)];
        if flags % 2 == 1 {
          ram[t] := ram[t][i := ram[t][i].(writable := true)];
        }
        if flags / 2 % 2 == 1 {
          ram[t] := ram[t][i := ram[t][i].(noExec := false)];
        }
        assert ram[t] == old(ram[t])[i := PageEntry(e, o.value, flags)];
        assert ram[..] == old(ram[..])[t := old(ram[t])[i := PageEntry(e, o.value, flags)]];
      }
    }

    // memory_create_page
    method CreatePage(pid: nat, root: nat, vaddr: nat, flags: nat) returns (o: Outcome<nat>)
      requires Valid()
      modifies this, frames, ram
      ensures Did(o, View(), MemoryState.CreatePage(old(View()), pid, root, vaddr, flags))
    {
      var q := vaddr / PAGE_SIZE;
      o := Reach(pid, root, q);
      if o.Done? {
        o := MapPage(pid, o.value, q, flags);
      }
    }

    // The inner loop of memory_create_n_pages; it returns the next page.
    method Fill(pid: nat, t: nat, q: nat, end: nat, flags: nat) returns (o: Outcome<nat>)
      requires Valid() && q < end
      modifies this, frames, ram
      ensures
        match MemoryState.Fill(old(View()), pid, t, q, end, flags)
        case Done(r) => o == Done(r.next) && View() == r.mem
        case Panic => o == Panic
        case Stray => o == Stray
    {
      hide MemoryState.MapPage, Index;
      var p := q;
      var index := Index(q, 4);
      while p < end && index < SLOTS
        invariant Valid() && q <= p <= end
        invariant index <= SLOTS && (index < SLOTS ==> index == Index(p, 4))
        invariant p == q ==> index < SLOTS
        invariant if p < end && index < SLOTS
                  then MemoryState.Fill(View(), pid, t, p, end, flags) == MemoryState.Fill(old(View()), pid, t, q, end, flags)
                  else MemoryState.Fill(old(View()), pid, t, q, end, flags) == Done(Filled(View(), p))
        decreases end - p
      {
        o := MapPage(pid, t, p, flags);
        if !o.Done? { return; }
        NextIndex(p);
        p := p + 1;
        index := index + 1;
      }
      return Done(p);
    }

    // memory_create_n_pages
    method CreatePages(pid: nat, root: nat, from: nat, to: nat, flags: nat) returns (o: Outcome<nat>)
      requires Valid()
      modifies this, frames, ram
      ensures Did(o, View(), MemoryState.CreatePages(old(View()), pid, root, from, to, flags))
    {
      hide MemoryState.Reach, MemoryState.Fill;
      var q, end := from / PAGE_SIZE, to / PAGE_SIZE + 1;
      while q < end
        invariant Valid()
        invariant Batch(View(), pid, root, q, end, flags) == Batch(old(View()), pid, root, from / PAGE_SIZE, end, flags)
        decreases end - q
      {
        o := Reach(pid, root, q);
        if !o.Done? { return; }
        o := Fill(pid, o.value, q, end, flags);
        if !o.Done? { return; }
        q := o.value;
      }
      return Done(last);
    }

    // ---- whole processes ----

    // memory_copy_virtual_memory_space
    method CopySpace(child: nat, root: nat, parent: nat) returns (o: Outcome<nat>)
      requires Valid()
      modifies this, frames, ram
      ensures Did(o, View(), MemoryState.CopySpace(old(View()), child, root, parent, 0))
    {
      hide MemoryState.CreatePage;
      var i := 0;
      while i < frames.Length
        invariant i <= frames.Length && Valid()
        invariant MemoryState.CopySpace(View(), child, root, parent, i) == MemoryState.CopySpace(old(View()), child, root, parent, 0)
      {
        if frames[i].pid == parent && !frames[i].table {
          o := CreatePage(child, root, frames[i].vaddr, frames[i].flags);
          if !o.Done? { return; }
          ram[o.value] := ram[i];
        }
        i := i + 1;
      }
      return Done(last);
    }

    // memory_free_process
    method FreeProcess(pid: nat)
      requires Valid()
      modifies frames
      ensures View() == MemoryState.FreeProcess(old(View()), pid)
    {
      var i := 0;
      while i < frames.Length
        invariant i <= frames.Length
        invariant forall f :: 0 <= f < frames.Length ==>
          frames[f] == if f < i && old(frames[f]).pid == pid then old(frames[f]).(pid := FREE) else old(frames[f])
      {
        if frames[i].pid == pid {
          frames[i] := frames[i].(pid := FREE);
        }
        i := i + 1;
      }
      assert frames[..] == MemoryState.FreeProcess(old(View()), pid).frames;
    }

    // ---- user memory ----

    // memory_get_physical_addr_from_user_space
    method Translate(root: nat, vaddr: nat) returns (a: Option<nat>)
      requires Valid()
      ensures a == MemoryState.Translate(View(), root, vaddr)
    {
      var q := vaddr / PAGE_SIZE;
      var t := Follow(root, q, root, 1);
      if t.None? { WalkStops(View(), root, q, 1); return None; }
      t := Follow(t.value, q, root, 2);
      if t.None? { WalkStops(View(), root, q, 2); return None; }
      t := Follow(t.value, q, root, 3);
      if t.None? { WalkStops(View(), root, q, 3); return None; }
      t := Follow(t.value, q, root, 4);
      if t.None? { return None; }
      return Some(t.value * PAGE_SIZE + vaddr % PAGE_SIZE);
    }

    // One level of the translation: the entry for page q in table t.
    method Follow(t: nat, q: nat, ghost root: nat, level: nat) returns (r: Option<nat>)
      requires Valid() && 1 <= level <= 4 && Walk(View(), root, q, level - 1) == Some(t)
      ensures r == Walk(View(), root, q, level)
    {
      if t >= ram.Length || !ram[t][Index(q, level)].present { return None; }
      return Some(ram[t][Index(q, level)].addr);
    }

    // memory_copy_data_from_user_space: the address is translated again only
    // where a page begins.
    method CopyFromUser(ghost roots: map<nat, nat>, ghost pid: nat, root: nat, va: nat, len: nat)
        returns (ok: bool, buffer: seq<byte>)
      requires Valid() && MemoryOk(View(), roots) && pid in roots && root == roots[pid] && va < USER_LIMIT && va + len <= USER_LIMIT
      ensures |buffer| == MappedPrefix(View(), root, va, len)
      ensures ok <==> MemoryState.Translate(View(), root, va).Some? && |buffer| == len
      ensures forall k: nat :: k < |buffer| ==> UserByte(View(), root, va + k) == Some(buffer[k])
    {
      hide Walk, MemoryOk;
      buffer := [];
      var a := Translate(root, va);
      if a.None? { return false, []; }
      var pb, i := a.value, 0;
      while i < len
        invariant i <= len && |buffer| == i
        invariant forall x :: va <= x < va + i ==> MemoryState.Translate(View(), root, x).Some?
        invariant i == 0 ==> MemoryState.Translate(View(), root, va) == Some(pb)
        invariant 0 < i < len && SamePage(va + i - 1, va + i) ==> MemoryState.Translate(View(), root, va + i) == Some(pb)
        invariant forall k: nat :: k < i ==> UserByte(View(), root, va + k) == Some(buffer[k])
      {
        if i > 0 && !SamePage(va + i - 1, va + i) {
          a := Translate(root, va + i);
          if a.None? {
            PrefixIs(View(), root, va, len, i);
            return false, buffer;
          }
          pb := a.value;
        }
        TranslatedByte(View(), roots, pid, va + i);
        buffer := buffer + [ByteOf(Pack(ram[pb / PAGE_SIZE][pb % PAGE_SIZE / 8]), pb % 8)];
        NextByte(View(), root, va + i);
        pb := pb + 1;
        i := i + 1;
      }
      PrefixIs(View(), root, va, len, len);
      ok := true;
    }

    // memory_copy_data_to_user_space
    method CopyToUser(ghost roots: map<nat, nat>, ghost pid: nat, root: nat, va: nat, data: seq<byte>)
        returns (ok: bool)
      requires Valid() && MemoryOk(View(), roots) && pid in roots && root == roots[pid]
      requires va < USER_LIMIT && va + |data| <= USER_LIMIT
      modifies ram
      ensures View() == StoreEach(old(View()), roots, pid, va, data).mem
      ensures ok <==> MemoryState.Translate(old(View()), root, va).Some? && MappedPrefix(old(View()), root, va, |data|) == |data|
    {
      hide Walk, MemoryOk, MemoryState.Translate, StoreByte, MappedPrefix, StoreEach, PhysByte, Wf, UserByte;
      CopyToUserIsRead(View(), roots, pid, va, data, pid, va);
      ghost var all := StoreEach(View(), roots, pid, va, data);
      var a := Translate(root, va);
      StoreStep(View(), roots, pid, va, data);
      if a.None? { return false; }
      var pb, i := a.value, 0;
      assert data[0..] == data;
      while i < |data|
        invariant i <= |data| && i <= all.count && Valid() && MemoryOk(View(), roots)
        invariant StoreEach(View(), roots, pid, va + i, data[i..]) == Written(all.mem, all.count - i)
        invariant i == 0 ==> MemoryState.Translate(View(), root, va) == Some(pb)
        invariant 0 < i < |data| && SamePage(va + i - 1, va + i) ==> MemoryState.Translate(View(), root, va + i) == Some(pb)
      {
        if i > 0 && !SamePage(va + i - 1, va + i) {
          a := Translate(root, va + i);
          StoreStep(View(), roots, pid, va + i, data[i..]);
          if a.None? { return false; }
          pb := a.value;
        }
        StoreAt(roots, pid, va + i, pb, data[i], data[i..]);
        assert data[i..][1..] == data[i + 1..];
        pb := pb + 1;
        i := i + 1;
      }
      StoreStep(View(), roots, pid, va + i, []);
      assert data[i..] == [];
      ok := true;
    }

    // *pb = b, where pb is the physical address of va; `rest` is what is still
    // to be copied.
    method StoreAt(ghost roots: map<nat, nat>, ghost pid: nat, ghost va: nat, pb: nat, b: byte, ghost rest: seq<byte>)
      requires Valid() && MemoryOk(View(), roots) && pid in roots && va + |rest| <= USER_LIMIT
      requires MemoryState.Translate(View(), roots[pid], va) == Some(pb) && rest != [] && rest[0] == b
      modifies ram
      ensures Valid() && MemoryOk(View(), roots) && InRam(old(View()), pb) && View() == StoreByte(old(View()), pb, b)
      ensures
        var s := StoreEach(View(), roots, pid, va + 1, rest[1..]);
        StoreEach(old(View()), roots, pid, va, rest) == Written(s.mem, s.count + 1)
      ensures |rest| > 1 && SamePage(va, va + 1) ==> MemoryState.Translate(View(), roots[pid], va + 1) == Some(pb + 1)
    {
      hide Walk, MemoryOk, MemoryState.Translate, StoreEach;
      ghost var before := View();
      StoreReadsBack(View(), roots, pid, va, b, pid, va);
      StoreStep(View(), roots, pid, va, rest);
      var f, i := pb / PAGE_SIZE, pb % PAGE_SIZE / 8;
      StoredWord(Pack(ram[f][i]), pb % 8, b);
      ram[f] := ram[f][i := Unpack(WithByte(Pack(ram[f][i]), pb % 8, b))];
      if |rest| > 1 {
        StoreReadsBack(before, roots, pid, va, b, pid, va + 1);
        NextByte(before, roots[pid], va);
      }
    }
  }

  // The break of a process, as the process record keeps it.
  class HeapRecord {
    const pid: nat
    const root: nat
    var end: nat
    var mapped: nat

    ghost function View(): Heap
      reads this
    {
      Heap(end, mapped)
    }

    // syscall_brk; the result is what the process finds in RAX.
    method Brk(m: PhysicalMemory, newBrk: nat) returns (o: Outcome<nat>)
      requires m.Valid()
      modifies this, m, m.frames, m.ram
      ensures
        match MemoryHeap.Brk(old(m.View()), pid, root, old(View()), newBrk)
        case Done(r) => o == Done(r.ret) && m.View() == r.mem && View() == r.heap
        case Panic => o == Panic
        case Stray => o == Stray
    {
      hide MemoryState.CreatePages;
      var incr := newBrk - end - 1;
      if newBrk == 0 {
        return Done(end + 1);
      } else if incr > 0 {
        if mapped - end < incr {
          var last := PageEnd(end + incr);
          var c := m.CreatePages(pid, root, mapped + 1, last, FLAG_WRITE);
          if c.IsFailure() { return c; }
          mapped := last;
        }
        end := end + incr;
        return Done(end + 1);
      } else {
        var decr := -incr;
        end := end - decr;
        return Done(end + 1);
      }
    }
  }

  predicate SamePage(x: nat, y: nat) {
    x / PAGE_SIZE == y / PAGE_SIZE
  }

  lemma NextIndex(q: nat)
    ensures Index(q, 4) + 1 < SLOTS ==> Index(q + 1, 4) == Index(q, 4) + 1
  {
  }

  lemma WalkStops(m: MemoryState.Memory, root: nat, q: nat, level: nat)
    requires Wf(m) && 1 <= level <= 4 && Walk(m, root, q, level) == None
    ensures Walk(m, root, q, 4) == None
    decreases 4 - level
  {
    if level < 4 { WalkStops(m, root, q, level + 1); }
  }

  // One byte of a copy, by the definition.
  lemma StoreStep(m: MemoryState.Memory, roots: map<nat, nat>, pid: nat, va: nat, data: seq<byte>)
    requires MemoryOk(m, roots) && pid in roots && va + |data| <= USER_LIMIT
    ensures data == [] ==> StoreEach(m, roots, pid, va, data) == Written(m, 0)
    ensures data != [] && MemoryState.Translate(m, roots[pid], va).None? ==>
      StoreEach(m, roots, pid, va, data) == Written(m, 0)
    ensures data != [] && MemoryState.Translate(m, roots[pid], va).Some? ==>
      var a := MemoryState.Translate(m, roots[pid], va).value;
      InRam(m, a) && var s := StoreByte(m, a, data[0]);
      MemoryOk(s, roots) && var rest := StoreEach(s, roots, pid, va + 1, data[1..]);
      StoreEach(m, roots, pid, va, data) == Written(rest.mem, rest.count + 1)
  {
    hide Walk, Inv, MemoryState.Translate, StoreByte;
    if data != [] && MemoryState.Translate(m, roots[pid], va).Some? {
      StoreReadsBack(m, roots, pid, va, data[0], pid, va);
    }
  }

  // Within a page, consecutive addresses are consecutive in memory.
  lemma NextByte(m: MemoryState.Memory, root: nat, x: nat)
    requires Wf(m) && MemoryState.Translate(m, root, x).Some?
    ensures SamePage(x, x + 1) ==>
      MemoryState.Translate(m, root, x + 1) == Some(MemoryState.Translate(m, root, x).value + 1)
  {
  }

  lemma {:induction false} PrefixIs(m: MemoryState.Memory, root: nat, va: nat, n: nat, c: nat)
    requires Wf(m) && c <= n && forall x :: va <= x < va + c ==> MemoryState.Translate(m, root, x).Some?
    requires c < n ==> MemoryState.Translate(m, root, va + c).None?
    ensures MappedPrefix(m, root, va, n) == c
    decreases n
  {
    if c > 0 {
      assert MemoryState.Translate(m, root, va).Some?;
      PrefixIs(m, root, va + 1, n - 1, c - 1);
    }
  }
}
