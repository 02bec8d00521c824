// Bytes of physical memory, and user memory read and written through the page
// tables.
module MemoryBytes {
  import opened Common
  import opened MemoryState
  import opened MemoryTree
  import opened MemoryPages
  import opened MemoryRoom
  import opened MemoryProcess

  type byte = b: int | 0 <= b < 256

  // ---- a word as a number and as eight bytes ----

  function Bit(b: bool): nat {
    if b then 1 else 0
  }

  // The fields from the least significant bit up.
  function Pack(e: Entry): (w: nat)
    requires EntryOk(e)
    ensures w < WORD_LIMIT
  {
    Bit(e.present) + 2 * (Bit(e.writable) + 2 * (e.control + 128 * (e.avl + 8 * (e.addr
      + ADDR_LIMIT * (e.available + 2048 * Bit(e.noExec))))))
  }

  function Unpack(w: nat): (e: Entry)
    requires w < WORD_LIMIT
    ensures EntryOk(e)
  {
    var w1 := w / 2;
    var w2 := w1 / 2;
    var w3 := w2 / 128;
    var w4 := w3 / 8;
    var w5 := w4 / ADDR_LIMIT;
    Entry(w % 2 == 1, w1 % 2 == 1, w2 % 128, w3 % 8, w4 % ADDR_LIMIT, w5 % 2048, w5 / 2048 == 1)
  }

  // A word and its fields determine each other.
  lemma PackUnpack(w: nat)
    requires w < WORD_LIMIT
    ensures Pack(Unpack(w)) == w
  {
    var w1 := w / 2;
    var w2 := w1 / 2;
    var w3 := w2 / 128;
    var w4 := w3 / 8;
    var w5 := w4 / ADDR_LIMIT;
    assert w5 / 2048 < 2;
  }

  lemma UnpackPack(e: Entry)
    requires EntryOk(e)
    ensures Unpack(Pack(e)) == e
  {
    var w5 := e.available + 2048 * Bit(e.noExec);
    var w4 := e.addr + ADDR_LIMIT * w5;
    var w3 := e.avl + 8 * w4;
    var w2 := e.control + 128 * w3;
    var w1 := Bit(e.writable) + 2 * w2;
    assert Pack(e) == Bit(e.present) + 2 * w1;
    assert Pack(e) / 2 == w1 && w1 / 2 == w2 && w2 / 128 == w3 && w3 / 8 == w4 && w4 / ADDR_LIMIT == w5;
  }

  // Where the processor looks for the fields of a word: present is bit 0 and
  // writable bit 1, the frame number is in bits 12 to 51, no-execute is bit 63.
  lemma FieldsOfWord(w: nat)
    requires w < WORD_LIMIT
    ensures
      var e := Unpack(w);
      && (e.present <==> w % 2 == 1) && (e.writable <==> w / 2 % 2 == 1)
      && e.control == w / 4 % 128 && e.avl == w / 512 % 8
      && e.addr * PAGE_SIZE == w % 0x10_0000_0000_0000 - w % PAGE_SIZE
      && e.available == w / 0x10_0000_0000_0000 % 2048
      && (e.noExec <==> w >= 0x8000_0000_0000_0000)
  {
    var w1 := w / 2;
    var w2 := w1 / 2;
    var w3 := w2 / 128;
    var w4 := w3 / 8;
    var w5 := w4 / ADDR_LIMIT;
    assert w2 == w / 4 && w3 == w / 512 && w4 == w / PAGE_SIZE && w5 == w / 0x10_0000_0000_0000;
  }

  // Byte k of a word, the least significant first.
  function ByteOf(w: nat, k: nat): byte {
    if k == 0 then w % 256 else ByteOf(w / 256, k - 1)
  }

  function WithByte(w: nat, k: nat, b: byte): nat {
    if k == 0 then w - w % 256 + b else w % 256 + 256 * WithByte(w / 256, k - 1, b)
  }

  // The number of values n bytes can hold.
  function Limit(n: nat): (r: nat)
    ensures r > 0
  {
    if n == 0 then 1 else 256 * Limit(n - 1)
  }

  lemma {:induction false} WithByteAt(w: nat, k: nat, b: byte, n: nat, j: nat)
    requires k < n && w < Limit(n)
    ensures WithByte(w, k, b) < Limit(n)
    ensures ByteOf(WithByte(w, k, b), j) == if j == k then b else ByteOf(w, j)
    decreases k
  {
    if k > 0 {
      WithByteAt(w / 256, k - 1, b, n - 1, if j == 0 then 0 else j - 1);
      Digits(WithByte(w / 256, k - 1, b), w % 256);
    } else {
      Digits(w / 256, b);
    }
  }

  lemma Digits(high: nat, low: byte)
    ensures (low + 256 * high) % 256 == low && (low + 256 * high) / 256 == high
  {
  }

  lemma WordLimit()
    ensures Limit(8) == WORD_LIMIT
  {
    assert Limit(2) == 0x1_0000;
    assert Limit(4) == 0x1_0000_0000;
    assert Limit(6) == 0x1_0000_0000_0000;
  }

  // ---- physical memory by the byte ----

  ghost predicate InRam(m: Memory, a: nat) {
    a / PAGE_SIZE < |m.ram|
  }

  function PhysByte(m: Memory, a: nat): byte
    requires Wf(m) && a / PAGE_SIZE < |m.ram|
  {
    ByteOf(Pack(m.ram[a / PAGE_SIZE][a % PAGE_SIZE / 8]), a % 8)
  }

  function StoreByte(m: Memory, a: nat, b: byte): (r: Memory)
    requires Wf(m) && a / PAGE_SIZE < |m.ram|
    ensures Wf(r) && r.frames == m.frames && r.last == m.last
    ensures r.ram == m.ram[a / PAGE_SIZE := r.ram[a / PAGE_SIZE]]
    ensures forall x :: 0 <= x && InRam(m, x) ==> InRam(r, x) && PhysByte(r, x) == if x == a then b else PhysByte(m, x)
  {
    var f, i := a / PAGE_SIZE, a % PAGE_SIZE / 8;
    var w := Pack(m.ram[f][i]);
    StoredWord(w, a % 8, b);
    var r := m.(ram := m.ram[f := m.ram[f][i := Unpack(WithByte(w, a % 8, b))]]);
    StoredByte(m, r, a, b);
    r
  }

  lemma StoredWord(w: nat, k: nat, b: byte)
    requires w < WORD_LIMIT && k < 8
    ensures WithByte(w, k, b) < WORD_LIMIT
  {
    WordLimit();
    WithByteAt(w, k, b, 8, 0);
  }

  lemma StoredByte(m: Memory, r: Memory, a: nat, b: byte)
    requires Wf(m) && Wf(r) && InRam(m, a)
    requires
      var f, i := a / PAGE_SIZE, a % PAGE_SIZE / 8;
      && WithByte(Pack(m.ram[f][i]), a % 8, b) < WORD_LIMIT
      && r == m.(ram := m.ram[f := m.ram[f][i := Unpack(WithByte(Pack(m.ram[f][i]), a % 8, b))]])
    ensures forall x :: 0 <= x && InRam(m, x) ==> InRam(r, x) && PhysByte(r, x) == if x == a then b else PhysByte(m, x)
  {
    hide Unpack, Pack, WithByte, ByteOf;
    PackUnpack(WithByte(Pack(m.ram[a / PAGE_SIZE][a % PAGE_SIZE / 8]), a % 8, b));
    forall x | 0 <= x && InRam(m, x)
      ensures InRam(r, x) && PhysByte(r, x) == if x == a then b else PhysByte(m, x)
    {
      if x / PAGE_SIZE == a / PAGE_SIZE && x % PAGE_SIZE / 8 == a % PAGE_SIZE / 8 {
        WordLimit();
        WithByteAt(Pack(m.ram[a / PAGE_SIZE][a % PAGE_SIZE / 8]), a % 8, b, 8, x % 8);
      }
    }
  }

  // ---- user memory ----

  const USER_LIMIT: nat := PAGES * PAGE_SIZE

  // The byte a process reads at an address.
  ghost function UserByte(m: Memory, root: nat, va: nat): Option<byte>
    requires Wf(m)
  {
    var a := Translate(m, root, va);
    if a.Some? && InRam(m, a.value) then Some(PhysByte(m, a.value)) else None
  }

  lemma TranslatedByte(m: Memory, roots: map<nat, nat>, pid: nat, va: nat)
    requires MemoryOk(m, roots) && pid in roots && va < USER_LIMIT
    ensures
      var a := Translate(m, roots[pid], va);
      a.Some? ==>
        && InRam(m, a.value) && UserFrame(m, a.value / PAGE_SIZE) && m.frames[a.value / PAGE_SIZE].pid == pid
        && a.value / PAGE_SIZE == Walk(m, roots[pid], va / PAGE_SIZE, 4).value && a.value % PAGE_SIZE == va % PAGE_SIZE
  {
    hide Walk, Inv;
    PagesHaveOwnFrames(m, roots, pid, va / PAGE_SIZE, pid, va / PAGE_SIZE);
    PidOk(m, roots, pid);
    var f := Walk(m, roots[pid], va / PAGE_SIZE, 4);
    if f.Some? {
      FrameAndOffset(f.value, va);
    }
  }

  lemma FrameAndOffset(f: nat, va: nat)
    ensures (f * PAGE_SIZE + va % PAGE_SIZE) / PAGE_SIZE == f && (f * PAGE_SIZE + va % PAGE_SIZE) % PAGE_SIZE == va % PAGE_SIZE
  {
  }

  // Distinct user addresses have distinct physical ones.
  lemma TranslationInjective(m: Memory, roots: map<nat, nat>, pid: nat, va: nat, id: nat, x: nat)
    requires MemoryOk(m, roots) && pid in roots && id in roots && va < USER_LIMIT && x < USER_LIMIT
    requires Translate(m, roots[pid], va).Some? && Translate(m, roots[id], x) == Translate(m, roots[pid], va)
    ensures id == pid && x == va
  {
    hide Walk;
    TranslatedByte(m, roots, pid, va);
    TranslatedByte(m, roots, id, x);
    PagesHaveOwnFrames(m, roots, pid, va / PAGE_SIZE, id, x / PAGE_SIZE);
  }

  // A byte stored through the page tables is read back there, and no process
  // reads anything else that changed; no translation moves.
  lemma StoreReadsBack(m: Memory, roots: map<nat, nat>, pid: nat, va: nat, b: byte, id: nat, x: nat)
    requires MemoryOk(m, roots) && pid in roots && id in roots && va < USER_LIMIT && x < USER_LIMIT
    requires Translate(m, roots[pid], va).Some?
    ensures
      var a := Translate(m, roots[pid], va).value;
      && InRam(m, a)
      && var r := StoreByte(m, a, b);
      && MemoryOk(r, roots) && r.frames == m.frames
      && Translate(r, roots[id], x) == Translate(m, roots[id], x)
      && UserByte(r, roots[id], x) == if id == pid && x == va then Some(b) else UserByte(m, roots[id], x)
  {
    hide Walk, PhysByte, Inv;
    var a := Translate(m, roots[pid], va).value;
    TranslatedByte(m, roots, pid, va);
    TranslatedByte(m, roots, id, x);
    StoreKeepsTranslation(m, roots, a, b, id, x);
    if Translate(m, roots[id], x) == Some(a) {
      TranslationInjective(m, roots, pid, va, id, x);
    }
  }

  lemma StoreKeepsTranslation(m: Memory, roots: map<nat, nat>, a: nat, b: byte, id: nat, x: nat)
    requires MemoryOk(m, roots) && id in roots && x < USER_LIMIT && InRam(m, a) && UserFrame(m, a / PAGE_SIZE)
    ensures
      var r := StoreByte(m, a, b);
      MemoryOk(r, roots) && Translate(r, roots[id], x) == Translate(m, roots[id], x)
  {
    hide Walk, StoreByte, Links, TreeOk, Owned, Rooted;
    var tree: Tree :| Inv(m, tree, roots);
    var r := StoreByte(m, a, b);
    assert r == m.(ram := m.ram[a / PAGE_SIZE := r.ram[a / PAGE_SIZE]]);
    UserWriteKeepsInv(m, tree, roots, a / PAGE_SIZE, r.ram[a / PAGE_SIZE]);
    WalkToPage(m, tree, roots, id, x / PAGE_SIZE);
    WalkToPage(r, tree, roots, id, x / PAGE_SIZE);
  }
}
