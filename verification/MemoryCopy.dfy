// Copies between the kernel and a process, byte by byte.
module MemoryCopy {
  import opened Common
  import opened MemoryState
  import opened MemoryTree
  import opened MemoryPages
  import opened MemoryBytes

  // How many bytes were written before an address was found unmapped.
  datatype Written = Written(mem: Memory, count: nat)

  // Each byte is translated on its own.
  function StoreEach(m: Memory, roots: map<nat, nat>, pid: nat, va: nat, data: seq<byte>): (r: Written)
    requires MemoryOk(m, roots) && pid in roots && va + |data| <= USER_LIMIT
    ensures MemoryOk(r.mem, roots) && r.mem.frames == m.frames && r.mem.last == m.last && r.count <= |data|
    decreases |data|
  {
    if data == [] then Written(m, 0)
    else
      var a := Translate(m, roots[pid], va);
      if a.None? then Written(m, 0)
      else
        StoreReadsBack(m, roots, pid, va, data[0], pid, va);
        var rest := StoreEach(StoreByte(m, a.value, data[0]), roots, pid, va + 1, data[1..]);
        Written(rest.mem, rest.count + 1)
  }

  // The number of addresses from va on, at most n, before the first one that
  // is not mapped.
  function MappedPrefix(m: Memory, root: nat, va: nat, n: nat): (r: nat)
    requires Wf(m)
    ensures r <= n && (forall x :: va <= x < va + r ==> Translate(m, root, x).Some?)
    ensures r < n ==> Translate(m, root, va + r).None?
    decreases n
  {
    if n == 0 || Translate(m, root, va).None? then 0 else 1 + MappedPrefix(m, root, va + 1, n - 1)
  }

  lemma {:induction false} SamePrefix(m: Memory, s: Memory, root: nat, va: nat, n: nat)
    requires Wf(m) && Wf(s)
    requires forall x :: va <= x < va + n ==> Translate(s, root, x) == Translate(m, root, x)
    ensures MappedPrefix(s, root, va, n) == MappedPrefix(m, root, va, n)
    decreases n
  {
    hide Translate;
    if n > 0 {
      assert Translate(s, root, va) == Translate(m, root, va);
      SamePrefix(m, s, root, va + 1, n - 1);
    }
  }

  // What the processes read after a copy: the process that was written to, the
  // bytes that were written, up to the first unmapped address; everything else
  // is as before, and so is every translation.
  lemma {:induction false} CopyToUserIsRead(m: Memory, roots: map<nat, nat>, pid: nat, va: nat, data: seq<byte>, id: nat, x: nat)
    requires MemoryOk(m, roots) && pid in roots && va + |data| <= USER_LIMIT && id in roots && x < USER_LIMIT
    ensures
      var r := StoreEach(m, roots, pid, va, data);
      && r.count == MappedPrefix(m, roots[pid], va, |data|)
      && Translate(r.mem, roots[id], x) == Translate(m, roots[id], x)
      && UserByte(r.mem, roots[id], x) ==
           (if id == pid && va <= x < va + r.count then Some(data[x - va]) else UserByte(m, roots[id], x))
    decreases |data|
  {
    hide StoreByte, Walk, PhysByte, Translate, UserByte, Inv;
    if data != [] {
      var a := Translate(m, roots[pid], va);
      if a.Some? {
        StoreReadsBack(m, roots, pid, va, data[0], id, x);
        StoreSamePrefix(m, roots, pid, va, data);
        CopyToUserIsRead(StoreByte(m, a.value, data[0]), roots, pid, va + 1, data[1..], id, x);
      }
    }
  }

  lemma StoreSamePrefix(m: Memory, roots: map<nat, nat>, pid: nat, va: nat, data: seq<byte>)
    requires MemoryOk(m, roots) && pid in roots && va + |data| <= USER_LIMIT
    requires data != [] && Translate(m, roots[pid], va).Some? && InRam(m, Translate(m, roots[pid], va).value)
    ensures
      var s := StoreByte(m, Translate(m, roots[pid], va).value, data[0]);
      MappedPrefix(s, roots[pid], va + 1, |data| - 1) == MappedPrefix(m, roots[pid], va + 1, |data| - 1)
  {
    hide StoreByte, Walk, PhysByte, Translate, UserByte, Inv, MappedPrefix;
    var s := StoreByte(m, Translate(m, roots[pid], va).value, data[0]);
    forall y | va + 1 <= y < va + 1 + (|data| - 1)
      ensures Translate(s, roots[pid], y) == Translate(m, roots[pid], y)
    {
      StoreReadsBack(m, roots, pid, va, data[0], pid, y);
    }
    SamePrefix(m, s, roots[pid], va + 1, |data| - 1);
  }

  // A buffer copied to user space in full is what a later copy from there
  // finds.
  lemma CopyRoundTrip(m: Memory, roots: map<nat, nat>, pid: nat, va: nat, data: seq<byte>)
    requires MemoryOk(m, roots) && pid in roots && va + |data| <= USER_LIMIT
    requires StoreEach(m, roots, pid, va, data).count == |data|
    ensures
      var r := StoreEach(m, roots, pid, va, data).mem;
      && MappedPrefix(r, roots[pid], va, |data|) == |data|
      && forall k: nat :: k < |data| ==> UserByte(r, roots[pid], va + k) == Some(data[k])
  {
    hide StoreEach, UserByte, MappedPrefix, Translate, Walk, Inv;
    var r := StoreEach(m, roots, pid, va, data).mem;
    forall k: nat | k < |data|
      ensures UserByte(r, roots[pid], va + k) == Some(data[k])
      ensures Translate(r, roots[pid], va + k) == Translate(m, roots[pid], va + k)
    {
      CopyToUserIsRead(m, roots, pid, va, data, pid, va + k);
    }
    if data != [] { CopyToUserIsRead(m, roots, pid, va, data, pid, va); }
    forall x | va <= x < va + |data|
      ensures Translate(r, roots[pid], x) == Translate(m, roots[pid], x)
    {
      CopyToUserIsRead(m, roots, pid, va, data, pid, x);
    }
    SamePrefix(m, r, roots[pid], va, |data|);
  }
}
