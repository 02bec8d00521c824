// src/cpu/x86_64/x86_64_decoder.cpp: finding where an instruction ends, a byte
// at a time, with a cache of decoded instructions.
module Decoder {
  import opened Common

  // CPU_X86_64_DECODER_INST_CACHE_TABLE_SIZE
  const CACHE_SIZE: nat := 0x4000

  // A byte of the instruction stream, its address and where it leads.
  datatype Fetched = Fetched(data: nat, vaddr: nat, next: nat)

  datatype Immediate = NoImm | Imm8 | Imm16 | Imm32 | Imm64 | Imm16And8 | ImmAddress

  // The opcode tables: which opcodes have a ModRM byte, and the immediate of an
  // opcode without and with one.
  datatype Tables = Tables(
    hasModrm: nat -> bool,
    plain: (nat, nat) -> Immediate,
    grouped: (nat, nat, nat, nat) -> Immediate
  )

  // x86_64_decoder_state_t: what is known of an instruction.
  datatype Inst = Inst(
    busy: bool, vaddr: nat, length: nat,
    prefixes: nat, rex: nat, ssePrefix: nat, addr32: bool, offset: nat,
    opcodeBytes: nat, opcode: nat,
    hasModrm: bool, modrm: nat, memory: bool,
    hasSib: bool, sib: nat,
    base: Option<nat>, index: Option<nat>,
    dispBytes: nat, dispFetched: nat,
    imm: Immediate, immBytes: nat, immFetched: nat
  )

  // What the decoder waits for: the handler it will be resumed at.
  datatype Handler = Start | Prefix | SecondOpcode | ModRm | Sib | Disp | Imm | CachedBytes | Complete

  // bytes: the opcode buffer.  got: the bytes taken of a cached instruction.
  datatype State = State(handler: Handler, inst: Inst, bytes: seq<nat>, got: nat, addr: nat, length: nat, next: nat)

  function Fresh(vaddr: nat): Inst {
    Inst(false, vaddr, 0, 0, 0, 0, false, 512, 0, 0, false, 0, false, false, 0, None, None, 0, 0, NoImm, 0, 0)
  }

  const IDLE: State := State(Start, Fresh(0), [], 0, 0, 0, 0)

  // ---- the byte-driven machine ----

  predicate IsPrefix(b: nat) {
    0x40 <= b <= 0x4F || b in {0xF2, 0xF3, 0x67, 0x2E, 0x26, 0x36, 0x3E, 0xF0, 0x66, 0x64, 0x65}
  }

  // A prefix other than REX cancels a REX prefix before it.
  function WithPrefix(x: Inst, b: nat): Inst {
    var y := x.(prefixes := x.prefixes + 1);
    if 0x40 <= b <= 0x4F then y.(rex := b) else WithLegacyPrefix(y.(rex := 0), b)
  }

  function WithLegacyPrefix(x: Inst, b: nat): Inst {
    if b == 0xF2 || b == 0xF3 then x.(ssePrefix := b % 16)
    else if b == 0x67 then x.(addr32 := true)
    else if b == 0x66 then x.(offset := 0, ssePrefix := if x.ssePrefix == 0 then 1 else x.ssePrefix)
    else x
  }

  function ImmSize(i: Immediate, addr32: bool): nat {
    match i
    case NoImm => 0
    case Imm8 => 1
    case Imm16 => 2
    case Imm32 => 4
    case Imm64 => 8
    case Imm16And8 => 3
    case ImmAddress => if addr32 then 4 else 8
  }

  function WithInst(s: State, x: Inst): State {
    s.(inst := x)
  }

  // x86_64_after_get_inst
  function Completed(s: State): State {
    s.(handler := Complete, inst := s.inst.(busy := true, length := |s.bytes|), length := |s.bytes|)
  }

  // x86_64_get_im
  function ToImmediate(s: State): State {
    var y := s.inst.(immBytes := ImmSize(s.inst.imm, s.inst.addr32));
    if y.immBytes > 0 then s.(handler := Imm, inst := y) else Completed(WithInst(s, y))
  }

  // x86_64_modrm_done
  function ModrmDone(t: Tables, s: State): State {
    var x := s.inst;
    ToImmediate(WithInst(s, x.(memory := x.modrm / 64 != 3, imm := t.grouped(x.opcode, x.offset, x.modrm, x.ssePrefix))))
  }

  // REX_B and REX_X
  function RexB(rex: nat): nat {
    rex % 2 * 8
  }

  function RexX(rex: nat): nat {
    rex / 2 % 2 * 8
  }

  // REX.W selects the third part of the opcode tables.
  function AtOffset(x: Inst): Inst {
    if x.rex / 8 % 2 == 1 then x.(offset := 1024) else x
  }

  // x86_64_after_get_opcodes
  function AfterOpcode(t: Tables, s: State): State {
    var y := AtOffset(s.inst);
    if t.hasModrm(y.opcode) then s.(handler := ModRm, inst := y.(hasModrm := true))
    else ToImmediate(WithInst(s, y.(imm := t.plain(y.opcode, y.offset))))
  }

  // x86_64_after_get_modrm; the control-register opcodes never address memory.
  function AfterModrm(t: Tables, s: State): State {
    var x := s.inst;
    var mod := if x.opcode / 4 * 4 == 0x120 then 3 else x.modrm / 64;
    var rm := x.modrm % 8;
    if mod == 3 then ModrmDone(t, s)
    else if rm == 4 then s.(handler := Sib, inst := x.(hasSib := true))
    else
      var y := ModrmParts(x, mod);
      if y.dispBytes > 0 then s.(handler := Disp, inst := y) else ModrmDone(t, WithInst(s, y))
  }

  function ModrmParts(x: Inst, mod: nat): Inst {
    if mod == 0 then (if x.modrm % 8 == 5 then x.(dispBytes := 4) else x)
    else x.(base := Some(x.modrm % 8 + RexB(x.rex)), dispBytes := if mod == 1 then 1 else 4)
  }

  function WithSibIndex(x: Inst): Inst {
    var index := x.sib / 8 % 8;
    if index != 4 then x.(index := Some(index + RexX(x.rex))) else x
  }

  function SibParts(x: Inst): Inst {
    var mod, base, y := x.modrm / 64, x.sib % 8, WithSibIndex(x);
    if mod == 0 then (if base == 5 then y.(dispBytes := 4) else y.(base := Some(base + RexB(x.rex))))
    else y.(dispBytes := if mod == 1 then 1 else 4)
  }

  function AfterSib(t: Tables, s: State): State {
    var z := SibParts(s.inst);
    if z.dispBytes > 0 then s.(handler := Disp, inst := z) else ModrmDone(t, WithInst(s, z))
  }

  function AfterPrefix(t: Tables, s: State, b: nat): State {
    var x := s.inst;
    if IsPrefix(b) then s.(handler := Prefix, inst := WithPrefix(x, b))
    else if b == 0x0F then s.(handler := SecondOpcode, inst := x.(opcodeBytes := 2))
    else AfterOpcode(t, WithInst(s, x.(opcodeBytes := 1, opcode := b)))
  }

  // The byte goes to the opcode buffer.
  function Took(s: State, f: Fetched): State {
    s.(bytes := s.bytes + [f.data], next := f.next)
  }

  function CacheIndex(vaddr: nat): nat {
    vaddr % CACHE_SIZE
  }

  predicate CacheOk(cache: seq<Inst>) {
    |cache| == CACHE_SIZE
  }

  // The first byte: the cache may know the instruction at this address.
  function First(t: Tables, cache: seq<Inst>, f: Fetched): State
    requires CacheOk(cache)
  {
    var s := Took(IDLE, f).(addr := f.vaddr);
    var e := cache[CacheIndex(f.vaddr)];
    if e.busy && e.vaddr == f.vaddr then Cached(s.(inst := e, got := 1))
    else AfterPrefix(t, s.(inst := Fresh(f.vaddr)), f.data)
  }

  // x86_64_get_bytes
  function Cached(s: State): State {
    if s.got >= s.inst.length then s.(handler := Complete, length := s.inst.length) else s.(handler := CachedBytes)
  }

  // One byte of the instruction.
  function Step(t: Tables, cache: seq<Inst>, s: State, f: Fetched): State
    requires CacheOk(cache) && s.handler != Complete
  {
    var r := Took(s, f);
    match s.handler
    case Start => First(t, cache, f)
    case Prefix => AfterPrefix(t, r, f.data)
    case SecondOpcode => AfterOpcode(t, WithInst(r, r.inst.(opcode := 0x100 + f.data)))
    case ModRm => AfterModrm(t, WithInst(r, r.inst.(modrm := f.data)))
    case Sib => AfterSib(t, WithInst(r, r.inst.(sib := f.data)))
    case Disp =>
      var p := WithInst(r, r.inst.(dispFetched := r.inst.dispFetched + 1));
      if p.inst.dispFetched < p.inst.dispBytes then p else ModrmDone(t, p)
    case Imm =>
      var p := WithInst(r, r.inst.(immFetched := r.inst.immFetched + 1));
      if p.inst.immFetched < p.inst.immBytes then p else Completed(p)
    case CachedBytes => Cached(s.(got := s.got + 1, next := f.next))
  }

  // The decoder fed with a stretch of the stream, and how many of its bytes it
  // takes: it stops when the instruction is complete.
  datatype Fed = Fed(state: State, taken: nat)

  function Feed(t: Tables, cache: seq<Inst>, s: State, input: seq<Fetched>): (r: Fed)
    requires CacheOk(cache)
    ensures r.taken <= |input|
    ensures r.taken < |input| ==> r.state.handler == Complete
    decreases |input|
  {
    if s.handler == Complete || input == [] then Fed(s, 0)
    else
      var r := Feed(t, cache, Step(t, cache, s, input[0]), input[1..]);
      Fed(r.state, r.taken + 1)
  }

  // Decoding in two stretches is decoding in one.
  lemma {:induction false} FeedInTwo(t: Tables, cache: seq<Inst>, s: State, a: seq<Fetched>, b: seq<Fetched>)
    requires CacheOk(cache)
    ensures
      var r := Feed(t, cache, s, a);
      var q := Feed(t, cache, r.state, b);
      Feed(t, cache, s, a + b) == Fed(q.state, r.taken + q.taken)
    decreases |a|
  {
    hide Step;
    if a == [] {
      assert a + b == b;
    } else if s.handler != Complete {
      assert (a + b)[0] == a[0] && (a + b)[1..] == a[1..] + b;
      FeedInTwo(t, cache, Step(t, cache, s, a[0]), a[1..], b);
    }
  }

  // The bytes over any number of cycles.
  function FeedAll(t: Tables, cache: seq<Inst>, s: State, cycles: seq<seq<Fetched>>): (r: Fed)
    requires CacheOk(cache)
    decreases |cycles|
  {
    if cycles == [] then Fed(s, 0)
    else
      var r := Feed(t, cache, s, cycles[0]);
      var q := FeedAll(t, cache, r.state, cycles[1..]);
      Fed(q.state, r.taken + q.taken)
  }

  function Joined(cycles: seq<seq<Fetched>>): seq<Fetched> {
    if cycles == [] then [] else cycles[0] + Joined(cycles[1..])
  }

  // Stalls do not matter: however the bytes are spread over cycles, the decoder
  // ends in the same state and has taken as many bytes.
  lemma {:induction false} StallsDoNotMatter(t: Tables, cache: seq<Inst>, s: State, cycles: seq<seq<Fetched>>)
    requires CacheOk(cache)
    ensures FeedAll(t, cache, s, cycles) == Feed(t, cache, s, Joined(cycles))
    decreases |cycles|
  {
    hide Step;
    if cycles != [] {
      var r := Feed(t, cache, s, cycles[0]);
      StallsDoNotMatter(t, cache, r.state, cycles[1..]);
      FeedInTwo(t, cache, s, cycles[0], Joined(cycles[1..]));
    }
  }

  // ---- lengths ----

  function Bit(b: bool): nat {
    if b then 1 else 0
  }

  // The parts of an instruction that have been seen so far.
  function Counted(x: Inst): nat {
    x.prefixes + x.opcodeBytes + Bit(x.hasModrm) + Bit(x.hasSib) + x.dispBytes + x.immBytes
  }

  // What the bytes in the opcode buffer are, while the decoder waits.
  ghost predicate LengthOk(s: State) {
    var x, n := s.inst, |s.bytes|;
    && !x.busy && x.length == 0
    && match s.handler
       case Start => true
       case Prefix =>
         n == x.prefixes && x.opcodeBytes == 0 && !x.hasModrm && !x.hasSib && x.dispBytes == 0 && x.immBytes == 0
         && x.dispFetched == 0 && x.immFetched == 0
       case SecondOpcode =>
         n + 1 == Counted(x) && !x.hasModrm && !x.hasSib && x.dispBytes == 0 && x.immBytes == 0 && x.dispFetched == 0 && x.immFetched == 0
       case ModRm =>
         n + 1 == Counted(x) && x.hasModrm && !x.hasSib && x.dispBytes == 0 && x.immBytes == 0 && x.dispFetched == 0 && x.immFetched == 0
       case Sib =>
         n + 1 == Counted(x) && x.dispBytes == 0 && x.immBytes == 0 && x.dispFetched == 0 && x.immFetched == 0
       case Disp =>
         n + x.dispBytes == Counted(x) + x.dispFetched && x.dispFetched < x.dispBytes && x.immBytes == 0 && x.immFetched == 0
       case Imm => n + x.immBytes == Counted(x) + x.immFetched && x.immFetched < x.immBytes
       case CachedBytes => false
       case Complete => false
  }

  // The instruction is complete, and its length is the sum of its parts.
  ghost predicate Whole(s: State) {
    && s.handler == Complete && s.inst.busy
    && s.inst.length == s.length == |s.bytes| == Counted(s.inst)
  }

  ghost predicate Decoding(s: State) {
    LengthOk(s) || Whole(s)
  }

  // The decoder goes on with instruction x after a byte.
  ghost predicate Onwards(s: State, x: Inst, r: State) {
    && Decoding(r) && r.handler != Start && r.inst.vaddr == x.vaddr
    && r.bytes == s.bytes && r.next == s.next && r.addr == s.addr
  }

  lemma OpcodeDecoding(t: Tables, s: State)
    requires |s.bytes| == Counted(s.inst) && s.inst.immBytes == 0 && s.inst.immFetched == 0 && !s.inst.busy && s.inst.length == 0
    requires s.inst.dispBytes == 0 && s.inst.dispFetched == 0
    requires !s.inst.hasModrm && !s.inst.hasSib
    ensures Onwards(s, s.inst, AfterOpcode(t, s))
  {
  }

  lemma DoneDecoding(t: Tables, s: State)
    requires |s.bytes| == Counted(s.inst) && s.inst.immBytes == 0 && s.inst.immFetched == 0 && !s.inst.busy && s.inst.length == 0
    ensures Onwards(s, s.inst, ModrmDone(t, s))
  {
  }

  lemma ModrmDecoding(t: Tables, s: State)
    requires |s.bytes| == Counted(s.inst) && s.inst.immBytes == 0 && s.inst.immFetched == 0 && !s.inst.busy && s.inst.length == 0
    requires s.inst.dispBytes == 0 && s.inst.dispFetched == 0
    requires !s.inst.hasSib
    ensures Onwards(s, s.inst, AfterModrm(t, s))
  {
    hide ModrmDone;
    var x := s.inst;
    var mod := if x.opcode / 4 * 4 == 0x120 then 3 else x.modrm / 64;
    if mod == 3 {
      DoneDecoding(t, s);
    } else if x.modrm % 8 != 4 && ModrmParts(x, mod).dispBytes == 0 {
      DoneDecoding(t, WithInst(s, ModrmParts(x, mod)));
    }
  }

  // Neither a SIB byte nor a prefix touches the counts of other parts.
  ghost predicate SameCounts(x: Inst, y: Inst) {
    && y.busy == x.busy && y.vaddr == x.vaddr && y.length == x.length
    && y.opcodeBytes == x.opcodeBytes && y.hasModrm == x.hasModrm && y.hasSib == x.hasSib
    && y.dispFetched == x.dispFetched && y.immBytes == x.immBytes && y.immFetched == x.immFetched
  }

  lemma SibIndexCounts(x: Inst)
    ensures SameCounts(x, WithSibIndex(x)) && WithSibIndex(x).prefixes == x.prefixes
  {
  }

  lemma SibCounts(x: Inst)
    ensures SameCounts(x, SibParts(x)) && SibParts(x).prefixes == x.prefixes
  {
    hide WithSibIndex;
    SibIndexCounts(x);
  }

  lemma PrefixCounts(x: Inst, b: nat)
    ensures
      var y := WithPrefix(x, b);
      SameCounts(x, y) && y.prefixes == x.prefixes + 1 && y.dispBytes == x.dispBytes
  {
    hide WithLegacyPrefix;
    LegacyPrefixCounts(x.(prefixes := x.prefixes + 1, rex := 0), b);
  }

  lemma LegacyPrefixCounts(x: Inst, b: nat)
    ensures
      var y := WithLegacyPrefix(x, b);
      SameCounts(x, y) && y.prefixes == x.prefixes && y.dispBytes == x.dispBytes
  {
  }

  lemma SibDecoding(t: Tables, s: State)
    requires |s.bytes| == Counted(s.inst) && s.inst.immBytes == 0 && s.inst.immFetched == 0 && !s.inst.busy && s.inst.length == 0
    requires s.inst.dispBytes == 0 && s.inst.dispFetched == 0
    ensures Onwards(s, s.inst, AfterSib(t, s))
  {
    hide ModrmDone, SibParts;
    var z := SibParts(s.inst);
    SibCounts(s.inst);
    if z.dispBytes == 0 {
      DoneDecoding(t, WithInst(s, z));
    }
  }

  ghost predicate Hit(cache: seq<Inst>, vaddr: nat)
    requires CacheOk(cache)
  {
    var e := cache[CacheIndex(vaddr)];
    e.busy && e.vaddr == vaddr
  }

  // The decoder takes byte f of the instruction at vaddr, after the bytes seen.
  ghost predicate Advances(f: Fetched, seen: seq<nat>, vaddr: nat, addr: nat, r: State) {
    && Decoding(r) && r.handler != Start && r.next == f.next
    && r.bytes == seen + [f.data] && r.inst.vaddr == vaddr && r.addr == addr
  }

  lemma FirstDecoding(t: Tables, cache: seq<Inst>, f: Fetched)
    requires CacheOk(cache) && !Hit(cache, f.vaddr)
    ensures Advances(f, [], f.vaddr, f.vaddr, First(t, cache, f))
  {
    hide AfterOpcode, WithPrefix, IsPrefix;
    PrefixCounts(Fresh(f.vaddr), f.data);
    if !IsPrefix(f.data) && f.data != 0x0F {
      OpcodeDecoding(t, Took(IDLE, f).(addr := f.vaddr, inst := Fresh(f.vaddr).(opcodeBytes := 1, opcode := f.data)));
    }
  }

  // Every byte of an instruction that is decoded, not found in the cache, is
  // accounted for in its parts.
  lemma StepDecoding(t: Tables, cache: seq<Inst>, s: State, f: Fetched)
    requires CacheOk(cache) && LengthOk(s) && (s.handler == Start ==> !Hit(cache, f.vaddr))
    ensures
      var r := Step(t, cache, s, f);
      && Decoding(r) && r.handler != Start && r.next == f.next
      && r.bytes == (if s.handler == Start then [f.data] else s.bytes + [f.data])
      && r.inst.vaddr == (if s.handler == Start then f.vaddr else s.inst.vaddr)
      && r.addr == (if s.handler == Start then f.vaddr else s.addr)
  {
    hide First, AfterOpcode, AfterModrm, AfterSib, ModrmDone, Completed, WithPrefix, IsPrefix;
    var r := Took(s, f);
    match s.handler
    case Start => FirstDecoding(t, cache, f);
    case Prefix =>
      PrefixCounts(s.inst, f.data);
      if !IsPrefix(f.data) && f.data != 0x0F { OpcodeDecoding(t, WithInst(r, r.inst.(opcodeBytes := 1, opcode := f.data))); }
    case SecondOpcode => OpcodeDecoding(t, WithInst(r, r.inst.(opcode := 0x100 + f.data)));
    case ModRm => ModrmDecoding(t, WithInst(r, r.inst.(modrm := f.data)));
    case Sib => SibDecoding(t, WithInst(r, r.inst.(sib := f.data)));
    case Disp =>
      var x := r.inst.(dispFetched := r.inst.dispFetched + 1);
      if x.dispFetched == x.dispBytes { DoneDecoding(t, WithInst(r, x)); }
    case Imm => CompletedDecoding(WithInst(r, r.inst.(immFetched := r.inst.immFetched + 1)));
  }

  lemma CompletedDecoding(s: State)
    requires |s.bytes| == Counted(s.inst) - s.inst.immBytes + s.inst.immFetched
    ensures s.inst.immFetched == s.inst.immBytes ==> Onwards(s, s.inst, Completed(s))
  {
  }

  function Data(input: seq<Fetched>): (d: seq<nat>)
    ensures |d| == |input| && forall i :: 0 <= i < |d| ==> d[i] == input[i].data
  {
    seq(|input|, i requires 0 <= i < |input| => input[i].data)
  }

  // A whole stretch, from the middle of an instruction.
  lemma {:induction false} FeedDecoding(t: Tables, cache: seq<Inst>, s: State, input: seq<Fetched>)
    requires CacheOk(cache) && Decoding(s) && s.handler != Start
    ensures
      var r := Feed(t, cache, s, input);
      && Decoding(r.state) && r.state.handler != Start
      && r.state.bytes == s.bytes + Data(input[..r.taken]) && r.state.inst.vaddr == s.inst.vaddr && r.state.addr == s.addr
      && (r.taken > 0 ==> r.state.next == input[r.taken - 1].next)
    decreases |input|
  {
    hide Step, Decoding, LengthOk, Data;
    if s.handler == Complete || input == [] {
      assert Data(input[..0]) == [];
    } else {
      assert LengthOk(s) by { NotWhole(s); }
      StepDecoding(t, cache, s, input[0]);
      var r := Feed(t, cache, Step(t, cache, s, input[0]), input[1..]);
      FeedDecoding(t, cache, Step(t, cache, s, input[0]), input[1..]);
      DataCons(input, r.taken);
    }
  }

  lemma DataCons(input: seq<Fetched>, n: nat)
    requires n < |input|
    ensures Data(input[..n + 1]) == [input[0].data] + Data(input[1..][..n])
  {
    assert input[..n + 1] == [input[0]] + input[1..][..n];
  }

  // A whole instruction that is not in the cache: when it is complete, the
  // bytes taken are its prefixes, opcode, ModRM, SIB, displacement and
  // immediate, and the next address is where the last of them leads.
  lemma LengthIsSumOfParts(t: Tables, cache: seq<Inst>, input: seq<Fetched>)
    requires CacheOk(cache) && input != [] && !Hit(cache, input[0].vaddr)
    ensures
      var r := Feed(t, cache, IDLE, input);
      && r.taken > 0 && r.state.inst.vaddr == r.state.addr == input[0].vaddr && r.state.next == input[r.taken - 1].next
      && r.state.bytes == Data(input[..r.taken])
      && (r.state.handler == Complete ==>
            r.state.inst.busy && r.taken == r.state.length == r.state.inst.length == Counted(r.state.inst))
      && (r.state.handler != Complete ==> r.taken == |input| && !r.state.inst.busy)
  {
    hide Step, LengthOk;
    assert LengthOk(IDLE) by { IdleOk(); }
    StepDecoding(t, cache, IDLE, input[0]);
    var s := Step(t, cache, IDLE, input[0]);
    FeedDecoding(t, cache, s, input[1..]);
    var r := Feed(t, cache, s, input[1..]);
    assert input[..r.taken + 1] == [input[0]] + input[1..][..r.taken];
    assert Data(input[..r.taken + 1]) == [input[0].data] + Data(input[1..][..r.taken]);
    StillDecoding(r.state);
  }

  lemma IdleOk()
    ensures LengthOk(IDLE)
  {
  }

  lemma StillDecoding(s: State)
    requires Decoding(s)
    ensures s.handler != Complete ==> !s.inst.busy
    ensures s.handler == Complete ==> Whole(s)
  {
  }

  // ---- the cache ----

  function Cold(): (c: seq<Inst>)
    ensures CacheOk(c) && forall i :: 0 <= i < CACHE_SIZE ==> !c[i].busy
  {
    seq(CACHE_SIZE, _ => Fresh(0))
  }

  // Past the first byte the cache is not looked at.
  lemma {:induction false} CacheOnlyAtStart(t: Tables, a: seq<Inst>, b: seq<Inst>, s: State, input: seq<Fetched>)
    requires CacheOk(a) && CacheOk(b) && LengthOk(s)
    requires s.handler == Start && input != [] ==> !Hit(a, input[0].vaddr) && !Hit(b, input[0].vaddr)
    ensures Feed(t, a, s, input) == Feed(t, b, s, input)
    decreases |input|
  {
    hide LengthOk;
    if s.handler != Complete && input != [] {
      StepDecoding(t, a, s, input[0]);
      assert Step(t, a, s, input[0]) == Step(t, b, s, input[0]);
      var r := Step(t, a, s, input[0]);
      if r.handler != Complete {
        assert LengthOk(r) by { NotWhole(r); }
        CacheOnlyAtStart(t, a, b, r, input[1..]);
      }
    }
  }

  lemma NotWhole(s: State)
    requires Decoding(s) && s.handler != Complete
    ensures LengthOk(s)
  {
  }

  // Only the data and the first address matter for what is decoded.
  ghost predicate SameCode(a: seq<Fetched>, b: seq<Fetched>) {
    |a| == |b| && forall i :: 0 <= i < |a| ==> a[i].data == b[i].data
  }

  lemma {:induction false} SameCodeDecodes(t: Tables, cache: seq<Inst>, s: State, r: State, a: seq<Fetched>, b: seq<Fetched>)
    requires CacheOk(cache) && LengthOk(s) && r == s.(next := r.next) && SameCode(a, b)
    requires s.handler == Start && a != [] ==> a[0].vaddr == b[0].vaddr && !Hit(cache, a[0].vaddr)
    ensures Feed(t, cache, s, a).taken == Feed(t, cache, r, b).taken
    ensures Feed(t, cache, r, b).state == Feed(t, cache, s, a).state.(next := Feed(t, cache, r, b).state.next)
    decreases |a|
  {
    hide LengthOk;
    if s.handler != Complete && a != [] {
      StepDecoding(t, cache, s, a[0]);
      var p, q := Step(t, cache, s, a[0]), Step(t, cache, r, b[0]);
      StepIgnoresNext(t, cache, s, r, a[0], b[0]);
      if p.handler != Complete {
        assert LengthOk(p) by { NotWhole(p); }
        SameCodeDecodes(t, cache, p, q, a[1..], b[1..]);
      }
    }
  }

  lemma StepIgnoresNext(t: Tables, cache: seq<Inst>, s: State, r: State, f: Fetched, g: Fetched)
    requires CacheOk(cache) && s.handler != Complete && r == s.(next := r.next) && f.data == g.data
    requires s.handler == Start ==> f.vaddr == g.vaddr
    ensures Step(t, cache, r, g) == Step(t, cache, s, f).(next := g.next)
  {
    hide AfterOpcode, AfterModrm, AfterSib, ModrmDone;
    var p, x, n := Took(s, f), s.inst, g.next;
    assert Took(r, g) == p.(next := n);
    match s.handler
    case Start => OpcodeIgnoresNext(t, Took(IDLE, f).(addr := f.vaddr, inst := Fresh(f.vaddr).(opcodeBytes := 1, opcode := f.data)), n);
    case Prefix => OpcodeIgnoresNext(t, WithInst(p, x.(opcodeBytes := 1, opcode := f.data)), n);
    case SecondOpcode => OpcodeIgnoresNext(t, WithInst(p, x.(opcode := 0x100 + f.data)), n);
    case ModRm => ModrmIgnoresNext(t, WithInst(p, x.(modrm := f.data)), n);
    case Sib => SibIgnoresNext(t, WithInst(p, x.(sib := f.data)), n);
    case Disp => DoneIgnoresNext(t, WithInst(p, x.(dispFetched := x.dispFetched + 1)), n);
    case Imm =>
    case CachedBytes =>
  }

  lemma OpcodeIgnoresNext(t: Tables, s: State, n: nat)
    ensures AfterOpcode(t, s.(next := n)) == AfterOpcode(t, s).(next := n)
  {
  }

  lemma ModrmIgnoresNext(t: Tables, s: State, n: nat)
    ensures AfterModrm(t, s.(next := n)) == AfterModrm(t, s).(next := n)
  {
  }

  lemma SibIgnoresNext(t: Tables, s: State, n: nat)
    ensures AfterSib(t, s.(next := n)) == AfterSib(t, s).(next := n)
  {
  }

  lemma DoneIgnoresNext(t: Tables, s: State, n: nat)
    ensures ModrmDone(t, s.(next := n)) == ModrmDone(t, s).(next := n)
  {
  }

  // What it means that an entry is right: decoding some bytes at its address,
  // with nothing in the cache, takes all of them and gives this entry.
  ghost predicate Decodes(t: Tables, code: seq<Fetched>, e: Inst) {
    && code != [] && code[0].vaddr == e.vaddr && e.busy
    && var r := Feed(t, Cold(), IDLE, code);
    r.taken == |code| && r.state.handler == Complete && r.state.inst == e
  }

  ghost predicate CacheTrue(t: Tables, cache: seq<Inst>) {
    && CacheOk(cache)
    && forall i :: 0 <= i < CACHE_SIZE && cache[i].busy ==>
      CacheIndex(cache[i].vaddr) == i && exists code: seq<Fetched> :: Decodes(t, code, cache[i])
  }

  // The entry of the instruction is written in place while it is decoded.
  function CacheAfter(cache: seq<Inst>, r: State): (c: seq<Inst>)
    requires CacheOk(cache)
    ensures CacheOk(c)
  {
    cache[CacheIndex(r.addr) := r.inst]
  }

  // A hit: the skipping part of the instruction.
  function Skipped(s: State, input: seq<Fetched>): (r: Fed)
    requires s.got < s.inst.length
  {
    var left := s.inst.length - s.got;
    var n := if |input| < left then |input| else left;
    var t := s.(got := s.got + n, next := if n > 0 then input[n - 1].next else s.next);
    Fed(if n == left then t.(handler := Complete, length := s.inst.length) else t, n)
  }

  lemma {:induction false} CachedFeeds(t: Tables, cache: seq<Inst>, s: State, input: seq<Fetched>)
    requires CacheOk(cache) && s.handler == CachedBytes && s.got < s.inst.length
    ensures Feed(t, cache, s, input) == Skipped(s, input)
    decreases |input|
  {
    if input != [] && s.got + 1 < s.inst.length {
      CachedFeeds(t, cache, Step(t, cache, s, input[0]), input[1..]);
    }
  }

  // With the cache, n bytes are taken and the result is that of decoding them.
  ghost predicate LikeDecoding(t: Tables, cache: seq<Inst>, input: seq<Fetched>, n: nat)
    requires CacheOk(cache)
  {
    var hit, cold := Feed(t, cache, IDLE, input), Feed(t, Cold(), IDLE, input);
    && hit.taken == cold.taken == n
    && hit.state.handler == cold.state.handler == Complete
    && hit.state.inst == cold.state.inst && hit.state.length == cold.state.length
    && hit.state.addr == cold.state.addr && hit.state.next == cold.state.next
  }

  // An instruction found in the cache, whose bytes are those it was decoded
  // from, takes as many bytes as decoding it again would, and leaves the same
  // instruction, length and next address.
  lemma HitIsDecoding(t: Tables, cache: seq<Inst>, code: seq<Fetched>, input: seq<Fetched>)
    requires CacheOk(cache) && input != [] && Hit(cache, input[0].vaddr)
    requires Decodes(t, code, cache[CacheIndex(input[0].vaddr)])
    requires |code| <= |input| && SameCode(code, input[..|code|])
    ensures LikeDecoding(t, cache, input, |code|)
  {
    hide Step, LengthOk;
    var e, n := cache[CacheIndex(input[0].vaddr)], |code|;
    var now := input[..n];
    IdleOk();
    SameCodeDecodes(t, Cold(), IDLE, IDLE, code, now);
    LengthIsSumOfParts(t, Cold(), code);
    LengthIsSumOfParts(t, Cold(), now);
    assert now + input[n..] == input;
    FeedInTwo(t, Cold(), IDLE, now, input[n..]);
    HitFeeds(t, cache, input);
  }

  lemma HitFeeds(t: Tables, cache: seq<Inst>, input: seq<Fetched>)
    requires CacheOk(cache) && input != [] && Hit(cache, input[0].vaddr)
    requires 0 < cache[CacheIndex(input[0].vaddr)].length <= |input|
    ensures
      var r, e := Feed(t, cache, IDLE, input), cache[CacheIndex(input[0].vaddr)];
      && r.taken == e.length == r.state.length && r.state.handler == Complete
      && r.state.inst == e && r.state.addr == input[0].vaddr && r.state.next == input[e.length - 1].next
  {
    var s := Step(t, cache, IDLE, input[0]);
    if s.handler == CachedBytes {
      CachedFeeds(t, cache, s, input[1..]);
    }
  }

  // Whatever is decoded, complete or cut short, the cache stays right.
  lemma CacheStaysTrue(t: Tables, cache: seq<Inst>, input: seq<Fetched>)
    requires CacheTrue(t, cache) && input != []
    ensures CacheTrue(t, CacheAfter(cache, Feed(t, cache, IDLE, input).state))
  {
    hide Step, LengthOk;
    var r := Feed(t, cache, IDLE, input);
    var i := CacheIndex(input[0].vaddr);
    if Hit(cache, input[0].vaddr) {
      HitKeepsEntry(t, cache, input);
      assert CacheAfter(cache, r.state) == cache;
    } else {
      IdleOk();
      LengthIsSumOfParts(t, cache, input);
      if r.state.handler == Complete {
        var code := input[..r.taken];
        CacheOnlyAtStart(t, cache, Cold(), IDLE, input);
        assert code + input[r.taken..] == input;
        FeedInTwo(t, Cold(), IDLE, code, input[r.taken..]);
        LengthIsSumOfParts(t, Cold(), code);
        CompleteEarly(t, code, input[r.taken..]);
        assert Decodes(t, code, r.state.inst);
      }
    }
  }

  // What happens to the cache: an instruction is decoded as far as its bytes go,
  // to its end or until the pipeline is flushed, over some cycles; or all entries
  // become invalid, when the page tables change.
  datatype Turn = Instruction(cycles: seq<seq<Fetched>>) | FlushTable

  // x86_64_flush_inst_cache
  function Invalidated(cache: seq<Inst>): (c: seq<Inst>)
    ensures |c| == |cache| && forall i :: 0 <= i < |c| ==> c[i] == cache[i].(busy := false)
  {
    seq(|cache|, i requires 0 <= i < |cache| => cache[i].(busy := false))
  }

  function CacheAfterTurn(t: Tables, cache: seq<Inst>, turn: Turn): (c: seq<Inst>)
    requires CacheOk(cache)
    ensures CacheOk(c)
  {
    match turn
    case Instruction(cycles) =>
      var input := Joined(cycles);
      if input == [] then cache else CacheAfter(cache, Feed(t, cache, IDLE, input).state)
    case FlushTable => Invalidated(cache)
  }

  function CacheAfterAll(t: Tables, cache: seq<Inst>, turns: seq<Turn>): (c: seq<Inst>)
    requires CacheOk(cache)
    ensures CacheOk(c)
    decreases |turns|
  {
    if turns == [] then cache else CacheAfterAll(t, CacheAfterTurn(t, cache, turns[0]), turns[1..])
  }

  lemma TurnKeepsTrue(t: Tables, cache: seq<Inst>, turn: Turn)
    requires CacheTrue(t, cache)
    ensures CacheTrue(t, CacheAfterTurn(t, cache, turn))
  {
    hide CacheAfter, Feed, Decodes;
    if turn.Instruction? && Joined(turn.cycles) != [] {
      CacheStaysTrue(t, cache, Joined(turn.cycles));
    }
  }

  lemma {:induction false} CacheAlwaysTrue(t: Tables, cache: seq<Inst>, turns: seq<Turn>)
    requires CacheTrue(t, cache)
    ensures CacheTrue(t, CacheAfterAll(t, cache, turns))
    decreases |turns|
  {
    hide CacheTrue, CacheOk, CacheAfterTurn;
    assert CacheOk(cache) by { TrueOk(t, cache); }
    if turns != [] {
      TurnKeepsTrue(t, cache, turns[0]);
      CacheAlwaysTrue(t, CacheAfterTurn(t, cache, turns[0]), turns[1..]);
    }
  }

  lemma TrueOk(t: Tables, cache: seq<Inst>)
    requires CacheTrue(t, cache)
    ensures CacheOk(cache)
  {
  }

  lemma ColdTrue(t: Tables)
    ensures CacheTrue(t, Cold())
  {
  }

  // Whatever was decoded before, a hit is on an instruction that was decoded
  // from some bytes at this address; if these are the bytes now, the hit takes
  // and leaves what decoding them takes and leaves.
  lemma EveryHitIsDecoding(t: Tables, turns: seq<Turn>, input: seq<Fetched>)
    requires input != [] && Hit(CacheAfterAll(t, Cold(), turns), input[0].vaddr)
    ensures exists code: seq<Fetched> ::
      && Decodes(t, code, CacheAfterAll(t, Cold(), turns)[CacheIndex(input[0].vaddr)])
      && (|code| <= |input| && SameCode(code, input[..|code|]) ==> LikeDecoding(t, CacheAfterAll(t, Cold(), turns), input, |code|))
  {
    hide Decodes, SameCode, LikeDecoding, Feed;
    var cache := CacheAfterAll(t, Cold(), turns);
    ColdTrue(t);
    CacheAlwaysTrue(t, Cold(), turns);
    var code: seq<Fetched> :| Decodes(t, code, cache[CacheIndex(input[0].vaddr)]);
    if |code| <= |input| && SameCode(code, input[..|code|]) {
      HitIsDecoding(t, cache, code, input);
    }
  }

  // If all of code + rest is needed to complete, code alone completes when
  // nothing of the rest was taken.
  lemma CompleteEarly(t: Tables, code: seq<Fetched>, rest: seq<Fetched>)
    requires Feed(t, Cold(), IDLE, code + rest).state.handler == Complete
    requires Feed(t, Cold(), IDLE, code + rest).taken == |code| && code != []
    ensures Feed(t, Cold(), IDLE, code) == Feed(t, Cold(), IDLE, code + rest)
  {
    hide Step;
    FeedInTwo(t, Cold(), IDLE, code, rest);
    var a := Feed(t, Cold(), IDLE, code);
    var b := Feed(t, Cold(), a.state, rest);
    if a.taken == |code| {
      NothingTaken(t, a.state, rest);
    }
  }

  lemma NothingTaken(t: Tables, s: State, input: seq<Fetched>)
    requires Feed(t, Cold(), s, input).taken == 0
    ensures Feed(t, Cold(), s, input).state == s
  {
  }

  lemma HitKeepsEntry(t: Tables, cache: seq<Inst>, input: seq<Fetched>)
    requires CacheOk(cache) && input != [] && Hit(cache, input[0].vaddr)
    ensures
      var r := Feed(t, cache, IDLE, input).state;
      r.inst == cache[CacheIndex(input[0].vaddr)] && r.addr == input[0].vaddr
  {
    var s := Step(t, cache, IDLE, input[0]);
    if s.handler == CachedBytes { CachedFeeds(t, cache, s, input[1..]); }
  }

  // ---- the code ----

  function Plus(r: Fed, n: nat): Fed {
    Fed(r.state, r.taken + n)
  }

  class DecodeUnit {
    const tables: Tables
    const cache: array<Inst>
    var slot: nat          // this->state
    var handler: Handler
    var firstByte: bool
    var bytes: seq<nat>
    var got: nat
    var addr: nat
    var length: nat
    var next: nat
    // The bytes the fetch buffer and the decode width allow in this cycle.
    var input: seq<Fetched>
    var pos: nat
    // The cache when the instruction was begun.
    ghost var before: seq<Inst>

    constructor (tables: Tables)
      ensures Valid() && Waits() && View() == IDLE
    {
      this.tables := tables;
      cache := new Inst[CACHE_SIZE](_ => Fresh(0));
      slot, handler, firstByte, bytes, got, addr, length, next, input, pos := 0, Prefix, true, [], 0, 0, 0, 0, [], 0;
      new;
      before := cache[..];
    }

    ghost predicate Valid()
      reads this, cache
    {
      && cache.Length == CACHE_SIZE && slot < CACHE_SIZE && pos <= |input| && CacheOk(before)
      && handler != Start
      && (firstByte ==> handler == Prefix && before == cache[..] && bytes == [] && got == 0 && length == 0)
      && (!firstByte ==> slot == CacheIndex(addr) && cache[..] == before[slot := cache[slot]])
    }

    ghost function View(): State
      requires Valid()
      reads this, cache
    {
      if firstByte then IDLE else State(handler, cache[slot], bytes, got, addr, length, next)
    }

    // A suspended loop has something left to take.
    ghost predicate Waits()
      requires Valid()
      reads this, cache
    {
      && (handler == Disp ==> cache[slot].dispFetched < cache[slot].dispBytes)
      && (handler == Imm ==> cache[slot].immFetched < cache[slot].immBytes)
      && (handler == CachedBytes ==> got < cache[slot].length)
      && (!firstByte && handler in {Prefix, SecondOpcode, ModRm, Sib} ==> cache[slot].dispFetched == 0)
      && (!firstByte && handler !in {Imm, Complete, CachedBytes} ==> cache[slot].immFetched == 0)
    }

    // The rest of the bytes of this cycle.
    ghost function Rest(): seq<Fetched>
      requires Valid()
      reads this, cache
    {
      input[pos..]
    }

    // initialize_instruction
    method Initialize()
      requires Valid()
      modifies this
      ensures Valid() && Waits() && View() == IDLE && input == old(input) && pos == old(pos) && cache[..] == before
    {
      firstByte, addr, length, got, bytes := true, 0, 0, 0, [];
      handler := Prefix;
      before := cache[..];
    }

    // x86_64_flush_inst_cache
    method FlushCache()
      requires Valid() && Waits()
      modifies cache, this`before
      ensures Valid() && Waits() && cache[..] == Invalidated(old(cache[..]))
    {
      var i := 0;
      while i < cache.Length
        invariant i <= cache.Length
        invariant forall k :: 0 <= k < cache.Length ==>
          cache[k] == if k < i then old(cache[k]).(busy := false) else old(cache[k])
      {
        cache[i] := cache[i].(busy := false);
        i := i + 1;
      }
      before := cache[..];
    }

    // One instruction after the other, each over any number of cycles, finished
    // or cut short, and flushes of the cache between them.
    method Turns(work: seq<Turn>)
      requires Valid() && Waits()
      modifies this, cache
      ensures Valid() && Waits() && cache[..] == CacheAfterAll(tables, old(cache[..]), work)
    {
      hide Feed, CacheAfter, Waits;
      var i := 0;
      while i < |work|
        invariant i <= |work| && Valid() && Waits()
        invariant CacheAfterAll(tables, cache[..], work[i..]) == CacheAfterAll(tables, old(cache[..]), work)
      {
        ghost var c := cache[..];
        match work[i] {
          case FlushTable => FlushCache();
          case Instruction(cycles) => OneInstruction(cycles);
        }
        assert cache[..] == CacheAfterTurn(tables, c, work[i]);
        assert work[i..][1..] == work[i + 1..];
        i := i + 1;
      }
    }

    method OneInstruction(cycles: seq<seq<Fetched>>)
      requires Valid()
      modifies this, cache
      ensures Valid() && Waits() && cache[..] == CacheAfterTurn(tables, old(cache[..]), Instruction(cycles))
    {
      hide Feed, CacheAfter;
      ghost var c := cache[..];
      Initialize();
      var taken := Cycles(cycles);
      FeedStarted(tables, c, Joined(cycles));
    }

    // EXEC_HANDLER, with the bytes of one cycle: the instruction is taken up
    // where it was left.
    method Cycle(chunk: seq<Fetched>)
      requires Valid() && Waits()
      modifies this, cache
      ensures Valid() && Waits() && before == old(before) && input == chunk
      ensures Feed(tables, before, old(View()), chunk) == Fed(View(), pos)
      ensures !firstByte ==> cache[..] == CacheAfter(before, View())
    {
      hide Feed, Step, AfterOpcode, AfterModrm, AfterSib, ModrmDone, AfterPrefix, Completed;
      input, pos := chunk, 0;
      assert chunk[0..] == chunk;
      match handler
      case Start =>
      case Prefix => Decode();
      case SecondOpcode => GetSecondOpcode();
      case ModRm => GetModrm();
      case Sib => GetSib();
      case Disp => GetDisp();
      case Imm => GetImmediateBytes();
      case CachedBytes => GetBytes();
      case Complete => FeedComplete(tables, before, View(), chunk);
    }

    // Any number of cycles: the suspended and resumed handlers leave the state,
    // and take the bytes, of a decoder that never waits.
    method Cycles(chunks: seq<seq<Fetched>>) returns (taken: nat)
      requires Valid() && Waits()
      modifies this, cache
      ensures Valid() && Waits() && before == old(before)
      ensures Feed(tables, before, old(View()), Joined(chunks)) == Fed(View(), taken)
      ensures chunks != [] && !firstByte ==> cache[..] == CacheAfter(before, View())
    {
      hide Feed;
      var i := 0;
      taken := 0;
      while i < |chunks|
        invariant i <= |chunks| && Valid() && Waits() && before == old(before)
        invariant FeedAll(tables, before, old(View()), chunks) == Plus(FeedAll(tables, before, View(), chunks[i..]), taken)
        invariant i > 0 && !firstByte ==> cache[..] == CacheAfter(before, View())
      {
        Cycle(chunks[i]);
        assert chunks[i..][1..] == chunks[i + 1..];
        taken := taken + pos;
        i := i + 1;
      }
      StallsDoNotMatter(tables, before, old(View()), chunks);
    }

    // GET_BYTE_FROM_FETCH_BUFFER; without a byte the cycle is over.
    method Take() returns (f: Option<Fetched>)
      requires Valid()
      modifies this`pos, this`next
      ensures Valid()
      ensures f == if old(pos) < |input| then Some(input[old(pos)]) else None
      ensures f.None? ==> pos == old(pos) && next == old(next)
      ensures f.Some? ==> pos == old(pos) + 1 && next == f.value.next
    {
      if pos == |input| { return None; }
      f := Some(input[pos]);
      next := input[pos].next;
      pos := pos + 1;
    }

    // x86_64_decode
    method Decode()
      requires Valid() && Waits() && handler == Prefix
      modifies this, cache
      ensures Valid() && Waits() && before == old(before) && input == old(input) && pos >= old(pos)
      ensures Feed(tables, before, old(View()), old(Rest())) == Fed(View(), pos - old(pos))
    {
      hide Feed, Step;
      var more := true;
      while more
        invariant Valid() && Waits() && before == old(before) && input == old(input) && pos >= old(pos)
        invariant !more ==> Feed(tables, before, old(View()), old(Rest())) == Fed(View(), pos - old(pos))
        invariant more ==> handler == Prefix
        invariant more ==>
          (Feed(tables, before, old(View()), old(Rest())) == Plus(Feed(tables, before, View(), Rest()), pos - old(pos)))
        decreases more, |input| - pos
      {
        more := NextPrefix();
      }
    }

    // The body of the loop; it goes on while prefixes come.
    method NextPrefix() returns (more: bool)
      requires Valid() && Waits() && handler == Prefix
      modifies this, cache
      ensures Valid() && Waits() && before == old(before) && input == old(input) && pos >= old(pos)
      ensures !more ==> Feed(tables, before, old(View()), old(Rest())) == Fed(View(), pos - old(pos))
      ensures more ==> handler == Prefix && pos == old(pos) + 1
      ensures more ==> Feed(tables, before, old(View()), old(Rest())) == Plus(Feed(tables, before, View(), Rest()), 1)
    {
      hide Feed, Step, Cached, AfterPrefix;
      var f, hit := NextByte();
      if f.None? { return false; }
      if hit {
        GetBytes();
        return false;
      }
      var prefixEnd := PrefixByte(f.value.data);
      more := !prefixEnd;
    }

    // Its first half: a byte, and for the first one the cache.
    method NextByte() returns (f: Option<Fetched>, hit: bool)
      requires Valid() && Waits() && handler == Prefix
      modifies this, cache
      ensures Valid() && before == old(before) && input == old(input)
      ensures f.None? ==> Waits() && pos == old(pos) && Feed(tables, before, old(View()), old(Rest())) == Fed(View(), 0)
      ensures f.Some? ==> !firstByte && pos == old(pos) + 1 && handler == if hit then CachedBytes else Prefix
      ensures f.Some? && !hit ==> Waits()
      ensures f.Some? ==>
        Feed(tables, before, old(View()), old(Rest())) ==
        Plus(Feed(tables, before, if hit then Cached(View()) else AfterPrefix(tables, View(), f.value.data), Rest()), 1)
    {
      hide Feed, Step, Cached, AfterPrefix, Hit;
      ghost var s := View();
      FeedStep(tables, before, s, input, pos);
      PrefixStep(tables, before, s, if pos < |input| then input[pos] else Fetched(0, 0, 0));
      hit := false;
      f := Take();
      if f.None? { return; }
      bytes := bytes + [f.value.data];
      if firstByte {
        hit := Begin(f.value);
      }
    }

    // The first byte of an instruction: the cache is asked.
    method Begin(f: Fetched) returns (hit: bool)
      requires cache.Length == CACHE_SIZE && pos <= |input| && CacheOk(before)
      requires firstByte && handler == Prefix && before == cache[..] && bytes == [f.data] && got == 0 && length == 0 && next == f.next
      modifies this`firstByte, this`addr, this`slot, this`got, this`handler, cache
      ensures Valid() && !firstByte && handler == (if hit then CachedBytes else Prefix)
      ensures hit == Hit(before, f.vaddr)
      ensures
        var s := Took(IDLE, f).(addr := f.vaddr);
        View() == if hit then s.(inst := before[CacheIndex(f.vaddr)], got := 1, handler := CachedBytes)
                  else s.(inst := Fresh(f.vaddr), handler := Prefix)
    {
      firstByte := false;
      addr := f.vaddr;
      slot := CacheIndex(addr);
      hit := cache[slot].busy && cache[slot].vaddr == addr;
      if hit {
        got := 1;
        handler := CachedBytes;
      } else {
        cache[slot] := Fresh(addr);
      }
    }

    // The switch over prefixes and opcodes.
    method PrefixByte(b: nat) returns (prefixEnd: bool)
      requires Valid() && Waits() && !firstByte && handler == Prefix
      modifies this, cache
      ensures Valid() && Waits() && !firstByte && before == old(before) && input == old(input) && pos >= old(pos)
      ensures prefixEnd ==> Feed(tables, before, AfterPrefix(tables, old(View()), b), old(Rest())) == Fed(View(), pos - old(pos))
      ensures !prefixEnd ==> handler == Prefix && View() == AfterPrefix(tables, old(View()), b) && pos == old(pos)
    {
      hide Feed, Step, AfterOpcode, IsPrefix;
      if IsPrefix(b) {
        PrefixCounts(cache[slot], b);
        cache[slot] := WithPrefix(cache[slot], b);
        return false;
      } else if b == 0x0F {
        cache[slot] := cache[slot].(opcodeBytes := 2);
        handler := SecondOpcode;
        GetSecondOpcode();
      } else {
        cache[slot] := cache[slot].(opcodeBytes := 1, opcode := b);
        AfterGetOpcodes();
      }
      prefixEnd := true;
    }

    // x86_64_get_second_opcode
    method GetSecondOpcode()
      requires Valid() && !firstByte && handler == SecondOpcode && Waits()
      modifies this, cache
      ensures Valid() && Waits() && !firstByte && before == old(before) && input == old(input) && pos >= old(pos)
      ensures Feed(tables, before, old(View()), old(Rest())) == Fed(View(), pos - old(pos))
    {
      hide Feed, AfterOpcode;
      FeedStep(tables, before, View(), input, pos);
      var f := Take();
      if f.None? { return; }
      bytes := bytes + [f.value.data];
      cache[slot] := cache[slot].(opcode := 0x100 + f.value.data);
      AfterGetOpcodes();
    }

    // x86_64_after_get_opcodes
    method AfterGetOpcodes()
      requires Valid() && !firstByte && cache[slot].dispFetched == 0 && cache[slot].immFetched == 0
      modifies this, cache
      ensures Valid() && Waits() && !firstByte && before == old(before) && input == old(input) && pos >= old(pos)
      ensures Feed(tables, before, AfterOpcode(tables, old(View())), old(Rest())) == Fed(View(), pos - old(pos))
    {
      hide Feed, ToImmediate, Step, AtOffset;
      OffsetCounts(cache[slot]);
      SelectTable();
      if tables.hasModrm(cache[slot].opcode) {
        cache[slot] := cache[slot].(hasModrm := true);
        handler := ModRm;
        GetModrm();
      } else {
        cache[slot] := cache[slot].(imm := tables.plain(cache[slot].opcode, cache[slot].offset));
        GetImmediate();
      }
    }

    method SelectTable()
      requires Valid() && !firstByte
      modifies cache
      ensures Valid() && cache[slot] == AtOffset(old(cache[slot])) && cache[..] == old(cache[..])[slot := cache[slot]]
    {
      if cache[slot].rex / 8 % 2 == 1 {
        cache[slot] := cache[slot].(offset := 1024);
      }
    }

    // x86_64_get_modrm
    method GetModrm()
      requires Valid() && !firstByte && handler == ModRm && Waits()
      modifies this, cache
      ensures Valid() && Waits() && !firstByte && before == old(before) && input == old(input) && pos >= old(pos)
      ensures Feed(tables, before, old(View()), old(Rest())) == Fed(View(), pos - old(pos))
    {
      hide Feed, AfterModrm;
      FeedStep(tables, before, View(), input, pos);
      var f := Take();
      if f.None? { return; }
      bytes := bytes + [f.value.data];
      cache[slot] := cache[slot].(modrm := f.value.data);
      AfterGetModrm();
    }

    // x86_64_after_get_modrm
    method AfterGetModrm()
      requires Valid() && !firstByte && cache[slot].dispFetched == 0 && cache[slot].immFetched == 0
      modifies this, cache
      ensures Valid() && Waits() && !firstByte && before == old(before) && input == old(input) && pos >= old(pos)
      ensures Feed(tables, before, AfterModrm(tables, old(View())), old(Rest())) == Fed(View(), pos - old(pos))
    {
      hide Feed, ModrmDone, Step;
      var x := cache[slot];
      var mod, rm := if x.opcode / 4 * 4 == 0x120 then 3 else x.modrm / 64, x.modrm % 8;
      if mod == 3 {
        FinishModrm();
      } else if rm != 4 {
        ReadModrm(mod);
        if cache[slot].dispBytes > 0 {
          handler := Disp;
          GetDisp();
        } else {
          FinishModrm();
        }
      } else {
        cache[slot] := cache[slot].(hasSib := true);
        handler := Sib;
        GetSib();
      }
    }

    // The base and the displacement a ModRM byte without SIB stands for.
    method ReadModrm(mod: nat)
      requires Valid() && !firstByte
      modifies cache
      ensures Valid() && cache[slot] == ModrmParts(old(cache[slot]), mod) && cache[..] == old(cache[..])[slot := cache[slot]]
    {
      var rm := cache[slot].modrm % 8;
      if mod == 0 {
        if rm == 5 { cache[slot] := cache[slot].(dispBytes := 4); }
      } else {
        cache[slot] := cache[slot].(base := Some(rm + RexB(cache[slot].rex)), dispBytes := if mod == 1 then 1 else 4);
      }
    }

    // x86_64_get_sib
    method GetSib()
      requires Valid() && !firstByte && handler == Sib && Waits()
      modifies this, cache
      ensures Valid() && Waits() && !firstByte && before == old(before) && input == old(input) && pos >= old(pos)
      ensures Feed(tables, before, old(View()), old(Rest())) == Fed(View(), pos - old(pos))
    {
      hide Feed, AfterSib;
      FeedStep(tables, before, View(), input, pos);
      var f := Take();
      if f.None? { return; }
      bytes := bytes + [f.value.data];
      cache[slot] := cache[slot].(sib := f.value.data);
      AfterGetSib();
    }

    method AfterGetSib()
      requires Valid() && !firstByte && cache[slot].dispFetched == 0 && cache[slot].immFetched == 0
      modifies this, cache
      ensures Valid() && Waits() && !firstByte && before == old(before) && input == old(input) && pos >= old(pos)
      ensures Feed(tables, before, AfterSib(tables, old(View())), old(Rest())) == Fed(View(), pos - old(pos))
    {
      hide Feed, ModrmDone, Step, SibParts;
      SibCounts(cache[slot]);
      ReadSib();
      if cache[slot].dispBytes > 0 {
        handler := Disp;
        GetDisp();
      } else {
        FinishModrm();
      }
    }

    // The base, the index and the displacement a SIB byte stands for.
    method ReadSib()
      requires Valid() && !firstByte
      modifies cache
      ensures Valid() && cache[slot] == SibParts(old(cache[slot])) && cache[..] == old(cache[..])[slot := cache[slot]]
    {
      var x := cache[slot];
      var mod, base, index := x.modrm / 64, x.sib % 8, x.sib / 8 % 8;
      if index != 4 {
        cache[slot] := cache[slot].(index := Some(index + RexX(x.rex)));
      }
      if mod == 0 {
        if base == 5 {
          cache[slot] := cache[slot].(dispBytes := 4);
        } else {
          cache[slot] := cache[slot].(base := Some(base + RexB(x.rex)));
        }
      } else {
        cache[slot] := cache[slot].(dispBytes := if mod == 1 then 1 else 4);
      }
    }

    // x86_64_get_disp
    method GetDisp()
      requires Valid() && !firstByte && handler == Disp && cache[slot].dispFetched < cache[slot].dispBytes && cache[slot].immFetched == 0
      modifies this, cache
      ensures Valid() && Waits() && !firstByte && before == old(before) && input == old(input) && pos >= old(pos)
      ensures Feed(tables, before, old(View()), old(Rest())) == Fed(View(), pos - old(pos))
    {
      hide Feed, ModrmDone, Step, FeedDisp;
      DispEnter(tables, before, View(), Rest());
      while cache[slot].dispFetched < cache[slot].dispBytes
        invariant Valid() && !firstByte && handler == Disp && cache[slot].immFetched == 0 && before == old(before) && input == old(input) && pos >= old(pos)
        invariant cache[slot].dispFetched <= cache[slot].dispBytes
        invariant Feed(tables, before, old(View()), old(Rest())) == Plus(FeedDisp(tables, before, View(), Rest()), pos - old(pos))
        decreases |input| - pos
      {
        DispStep(tables, before, View(), input, pos);
        var f := Take();
        if f.None? { return; }
        bytes := bytes + [f.value.data];
        cache[slot] := cache[slot].(dispFetched := cache[slot].dispFetched + 1);
      }
      DispEnter(tables, before, View(), Rest());
      FinishModrm();
    }

    // x86_64_modrm_done
    method FinishModrm()
      requires Valid() && !firstByte && cache[slot].immFetched == 0
      modifies this, cache
      ensures Valid() && Waits() && !firstByte && before == old(before) && input == old(input) && pos >= old(pos)
      ensures Feed(tables, before, ModrmDone(tables, old(View())), old(Rest())) == Fed(View(), pos - old(pos))
    {
      hide Feed, ToImmediate, Step;
      var x := cache[slot];
      cache[slot] := x.(memory := x.modrm / 64 != 3, imm := tables.grouped(x.opcode, x.offset, x.modrm, x.ssePrefix));
      GetImmediate();
    }

    // x86_64_get_im
    method GetImmediate()
      requires Valid() && !firstByte && cache[slot].immFetched == 0
      modifies this, cache
      ensures Valid() && Waits() && !firstByte && before == old(before) && input == old(input) && pos >= old(pos)
      ensures Feed(tables, before, ToImmediate(old(View())), old(Rest())) == Fed(View(), pos - old(pos))
    {
      hide Feed, Step, Completed;
      cache[slot] := cache[slot].(immBytes := ImmSize(cache[slot].imm, cache[slot].addr32));
      if cache[slot].immBytes > 0 {
        handler := Imm;
        GetImmediateBytes();
      } else {
        FinishInstruction();
      }
    }

    // x86_64_get_im_
    method GetImmediateBytes()
      requires Valid() && !firstByte && handler == Imm && cache[slot].immFetched < cache[slot].immBytes
      modifies this, cache
      ensures Valid() && Waits() && !firstByte && before == old(before) && input == old(input) && pos >= old(pos)
      ensures Feed(tables, before, old(View()), old(Rest())) == Fed(View(), pos - old(pos))
    {
      hide Feed, Completed, Step, FeedImm;
      ImmEnter(tables, before, View(), Rest());
      while cache[slot].immFetched < cache[slot].immBytes
        invariant Valid() && !firstByte && handler == Imm && before == old(before) && input == old(input) && pos >= old(pos)
        invariant cache[slot].immFetched <= cache[slot].immBytes
        invariant Feed(tables, before, old(View()), old(Rest())) == Plus(FeedImm(tables, before, View(), Rest()), pos - old(pos))
        decreases |input| - pos
      {
        ImmStep(tables, before, View(), input, pos);
        var f := Take();
        if f.None? { return; }
        bytes := bytes + [f.value.data];
        cache[slot] := cache[slot].(immFetched := cache[slot].immFetched + 1);
      }
      ImmEnter(tables, before, View(), Rest());
      FinishInstruction();
    }

    // x86_64_after_get_inst
    method FinishInstruction()
      requires Valid() && !firstByte
      modifies this, cache
      ensures Valid() && Waits() && !firstByte && before == old(before) && input == old(input) && pos >= old(pos)
      ensures Feed(tables, before, Completed(old(View())), old(Rest())) == Fed(View(), pos - old(pos))
    {
      hide Feed, Step;
      length := |bytes|;
      cache[slot] := cache[slot].(length := |bytes|, busy := true);
      handler := Complete;
      FeedComplete(tables, before, View(), Rest());
    }

    // x86_64_get_bytes: the rest of a known instruction is skipped, as far as
    // the cycle allows.
    method GetBytes()
      requires Valid() && !firstByte && handler == CachedBytes
      modifies this
      ensures Valid() && Waits() && !firstByte && before == old(before) && input == old(input) && pos >= old(pos)
      ensures Feed(tables, before, Cached(old(View())), old(Rest())) == Fed(View(), pos - old(pos))
    {
      hide Feed, Step, Skipped;
      ghost var s, rest := View(), Rest();
      if got < cache[slot].length {
        CachedFeeds(tables, before, s, rest);
        SkipLeft();
      } else {
        length := cache[slot].length;
        handler := Complete;
        FeedComplete(tables, before, View(), rest);
      }
    }

    // The part of it that asks the fetch buffer to skip.
    method SkipLeft()
      requires Valid() && !firstByte && handler == CachedBytes && got < cache[slot].length
      modifies this`next, this`got, this`pos, this`length, this`handler
      ensures Valid() && Waits() && !firstByte && pos >= old(pos)
      ensures Skipped(old(View()), old(Rest())) == Fed(View(), pos - old(pos))
    {
      ghost var rest := Rest();
      var left := cache[slot].length - got;
      var skip := if left < |input| - pos then left else |input| - pos;
      if skip > 0 {
        next := input[pos + skip - 1].next;
        assert rest[skip - 1] == input[pos + skip - 1];
      }
      got := got + skip;
      pos := pos + skip;
      if skip == left {
        length := cache[slot].length;
        handler := Complete;
      }
    }
  }

  // One more byte, or none.
  lemma FeedStep(t: Tables, cache: seq<Inst>, s: State, input: seq<Fetched>, pos: nat)
    requires CacheOk(cache) && pos <= |input|
    ensures s.handler == Complete || pos == |input| ==> Feed(t, cache, s, input[pos..]) == Fed(s, 0)
    ensures s.handler != Complete && pos < |input| ==>
      Feed(t, cache, s, input[pos..]) == Plus(Feed(t, cache, Step(t, cache, s, input[pos]), input[pos + 1..]), 1)
  {
    hide Step;
    if pos < |input| {
      assert input[pos..][0] == input[pos] && input[pos..][1..] == input[pos + 1..];
    }
  }

  lemma StepStarted(t: Tables, cache: seq<Inst>, s: State, f: Fetched)
    requires CacheOk(cache) && s.handler != Complete
    ensures Step(t, cache, s, f).handler != Start
  {
  }

  // A decoder that got a byte is not at the start.
  lemma {:induction false} FeedStarted(t: Tables, cache: seq<Inst>, input: seq<Fetched>)
    requires CacheOk(cache)
    ensures Feed(t, cache, IDLE, input).state.handler == Start <==> input == []
  {
    hide Step;
    if input != [] {
      StepStarted(t, cache, IDLE, input[0]);
      StaysStarted(t, cache, Step(t, cache, IDLE, input[0]), input[1..]);
    }
  }

  lemma {:induction false} StaysStarted(t: Tables, cache: seq<Inst>, s: State, input: seq<Fetched>)
    requires CacheOk(cache) && s.handler != Start
    ensures Feed(t, cache, s, input).state.handler != Start
    decreases |input|
  {
    hide Step;
    if input != [] && s.handler != Complete {
      StepStarted(t, cache, s, input[0]);
      StaysStarted(t, cache, Step(t, cache, s, input[0]), input[1..]);
    }
  }

  lemma FeedComplete(t: Tables, cache: seq<Inst>, s: State, input: seq<Fetched>)
    requires CacheOk(cache) && s.handler == Complete
    ensures Feed(t, cache, s, input) == Fed(s, 0)
  {
  }

  lemma OffsetCounts(x: Inst)
    ensures AtOffset(x).dispFetched == x.dispFetched && AtOffset(x).immFetched == x.immFetched
  {
  }

  lemma PrefixStep(t: Tables, cache: seq<Inst>, s: State, f: Fetched)
    requires CacheOk(cache) && (s == IDLE || s.handler == Prefix)
    ensures s.handler == Prefix ==> Step(t, cache, s, f) == AfterPrefix(t, Took(s, f), f.data)
    ensures
      s == IDLE ==>
        var r := Took(IDLE, f).(addr := f.vaddr);
        && (Hit(cache, f.vaddr) ==>
              Step(t, cache, s, f) == Cached(r.(inst := cache[CacheIndex(f.vaddr)], got := 1, handler := CachedBytes)))
        && (!Hit(cache, f.vaddr) ==>
              Step(t, cache, s, f) == AfterPrefix(t, r.(inst := Fresh(f.vaddr), handler := Prefix), f.data))
  {
  }

  // The loops over displacement and immediate bytes.
  ghost function FeedDisp(t: Tables, cache: seq<Inst>, s: State, input: seq<Fetched>): Fed
    requires CacheOk(cache)
  {
    if s.inst.dispFetched < s.inst.dispBytes then Feed(t, cache, s, input) else Feed(t, cache, ModrmDone(t, s), input)
  }

  lemma DispEnter(t: Tables, cache: seq<Inst>, s: State, input: seq<Fetched>)
    requires CacheOk(cache)
    ensures FeedDisp(t, cache, s, input) ==
      if s.inst.dispFetched < s.inst.dispBytes then Feed(t, cache, s, input) else Feed(t, cache, ModrmDone(t, s), input)
  {
  }

  lemma DispStep(t: Tables, cache: seq<Inst>, s: State, input: seq<Fetched>, pos: nat)
    requires CacheOk(cache) && s.handler == Disp && s.inst.dispFetched < s.inst.dispBytes && pos <= |input|
    ensures pos == |input| ==> FeedDisp(t, cache, s, input[pos..]) == Fed(s, 0)
    ensures pos < |input| ==>
      FeedDisp(t, cache, s, input[pos..]) ==
        Plus(FeedDisp(t, cache, WithInst(Took(s, input[pos]), s.inst.(dispFetched := s.inst.dispFetched + 1)), input[pos + 1..]), 1)
  {
    hide ModrmDone;
    FeedStep(t, cache, s, input, pos);
  }

  ghost function FeedImm(t: Tables, cache: seq<Inst>, s: State, input: seq<Fetched>): Fed
    requires CacheOk(cache)
  {
    if s.inst.immFetched < s.inst.immBytes then Feed(t, cache, s, input) else Feed(t, cache, Completed(s), input)
  }

  lemma ImmEnter(t: Tables, cache: seq<Inst>, s: State, input: seq<Fetched>)
    requires CacheOk(cache)
    ensures FeedImm(t, cache, s, input) ==
      if s.inst.immFetched < s.inst.immBytes then Feed(t, cache, s, input) else Feed(t, cache, Completed(s), input)
  {
  }

  lemma ImmStep(t: Tables, cache: seq<Inst>, s: State, input: seq<Fetched>, pos: nat)
    requires CacheOk(cache) && s.handler == Imm && s.inst.immFetched < s.inst.immBytes && pos <= |input|
    ensures pos == |input| ==> FeedImm(t, cache, s, input[pos..]) == Fed(s, 0)
    ensures pos < |input| ==>
      FeedImm(t, cache, s, input[pos..]) ==
        Plus(FeedImm(t, cache, WithInst(Took(s, input[pos]), s.inst.(immFetched := s.inst.immFetched + 1)), input[pos + 1..]), 1)
  {
    hide Completed;
    FeedStep(t, cache, s, input, pos);
  }
}
