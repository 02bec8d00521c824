// The format of an instruction as its bytes show it, read off without a
// decoder, and that the decoder of x86_64_decoder.cpp finds exactly this.
module DecoderFormat {
  import opened Common
  import opened Decoder

  // ---- what the bytes say ----

  predicate RexByte(b: nat) {
    0x40 <= b <= 0x4F
  }

  predicate RepeatByte(b: nat) {
    b == 0xF2 || b == 0xF3
  }

  // REX; repeat; operand and address size; lock; segments.
  predicate PrefixByte(b: nat) {
    || RexByte(b) || RepeatByte(b) || b == 0x66 || b == 0x67 || b == 0xF0
    || b == 0x26 || b == 0x2E || b == 0x36 || b == 0x3E || b == 0x64 || b == 0x65
  }

  // Of the repeat prefixes the last one counts, and it goes before the operand
  // size.
  ghost predicate LastRepeat(p: seq<nat>, k: nat) {
    k < |p| && RepeatByte(p[k]) && forall j :: k < j < |p| ==> !RepeatByte(p[j])
  }

  ghost predicate RepeatRead(p: seq<nat>, ssePrefix: nat) {
    || (exists k: nat :: LastRepeat(p, k) && ssePrefix == p[k] - 0xF0)
    || ((forall k :: 0 <= k < |p| ==> !RepeatByte(p[k])) && ssePrefix == if 0x66 in p then 1 else 0)
  }

  // A REX prefix counts only directly before the opcode.
  ghost predicate PrefixesRead(p: seq<nat>, rex: nat, addr32: bool, ssePrefix: nat) {
    && (forall i :: 0 <= i < |p| ==> PrefixByte(p[i]))
    && rex == (if p != [] && RexByte(p[|p| - 1]) then p[|p| - 1] else 0)
    && (addr32 <==> 0x67 in p)
    && RepeatRead(p, ssePrefix)
  }

  ghost predicate OpcodeRead(t: Tables, b: seq<nat>, e: Inst) {
    var n := e.prefixes;
    && n < |b| && PrefixesRead(b[..n], e.rex, e.addr32, e.ssePrefix) && !PrefixByte(b[n])
    && (if b[n] == 0x0F
        then n + 1 < |b| && e.opcodeBytes == 2 && e.opcode == 0x100 + b[n + 1]
        else e.opcodeBytes == 1 && e.opcode == b[n])
    && e.offset == (if e.rex / 8 % 2 == 1 then 1024 else if 0x66 in b[..n] then 0 else 512)
    && (e.hasModrm <==> t.hasModrm(e.opcode))
  }

  // The control-register opcodes never address memory.
  predicate Addresses(e: Inst) {
    e.hasModrm && e.modrm / 64 != 3 && !(0x120 <= e.opcode <= 0x123)
  }

  ghost predicate ModrmRead(b: seq<nat>, e: Inst) {
    var o := e.prefixes + e.opcodeBytes;
    if e.hasModrm then o < |b| && e.modrm == b[o] else e.modrm == 0
  }

  ghost predicate SibRead(b: seq<nat>, e: Inst) {
    var o := e.prefixes + e.opcodeBytes;
    && (e.hasSib <==> Addresses(e) && e.modrm % 8 == 4)
    && (if e.hasSib then o + 1 < |b| && e.sib == b[o + 1] else e.sib == 0)
  }

  ghost predicate AddressRead(e: Inst) {
    var mod, rm := e.modrm / 64, e.modrm % 8;
    && e.dispBytes == (
         if !Addresses(e) then 0
         else if mod == 1 then 1
         else if mod == 0 && rm != 5 && !(rm == 4 && e.sib % 8 == 5) then 0
         else 4)
    && e.base == (
         if !Addresses(e) then None
         else if mod == 0 && rm == 4 && e.sib % 8 != 5 then Some(e.sib % 8 + e.rex % 2 * 8)
         else if mod != 0 && rm != 4 then Some(rm + e.rex % 2 * 8)
         else None)
    && e.index == (if e.hasSib && e.sib / 8 % 8 != 4 then Some(e.sib / 8 % 8 + e.rex / 2 % 2 * 8) else None)
  }

  predicate ImmediateSize(kind: Immediate, addr32: bool, n: nat) {
    match n
    case 0 => kind == NoImm
    case 1 => kind == Imm8
    case 2 => kind == Imm16
    case 3 => kind == Imm16And8
    case 4 => kind == Imm32 || (kind == ImmAddress && addr32)
    case 8 => kind == Imm64 || (kind == ImmAddress && !addr32)
    case _ => false
  }

  predicate ImmRead(t: Tables, e: Inst) {
    && e.imm == (if e.hasModrm then t.grouped(e.opcode, e.offset, e.modrm, e.ssePrefix) else t.plain(e.opcode, e.offset))
    && (e.memory <==> e.hasModrm && e.modrm / 64 != 3)
    && ImmediateSize(e.imm, e.addr32, e.immBytes)
  }

  // Where displacement and immediate start, and where they end.
  function HeadLength(e: Inst): nat {
    e.prefixes + e.opcodeBytes + (if e.hasModrm then 1 else 0) + (if e.hasSib then 1 else 0)
  }

  // The bytes b are an instruction, and e is what they say.
  ghost predicate Format(t: Tables, b: seq<nat>, e: Inst) {
    && OpcodeRead(t, b, e) && ModrmRead(b, e) && SibRead(b, e) && AddressRead(e) && ImmRead(t, e)
    && |b| == HeadLength(e) + e.dispBytes + e.immBytes
    && e.busy && e.length == |b| && e.dispFetched == e.dispBytes && e.immFetched == e.immBytes
  }

  // ---- what the decoder has read so far ----

  ghost predicate NoAddress(e: Inst) {
    e.base == None && e.index == None && e.sib == 0 && !e.memory
  }

  ghost predicate PrefixesThere(s: State) {
    var b, e := s.bytes, s.inst;
    && |b| == e.prefixes && PrefixesRead(b, e.rex, e.addr32, e.ssePrefix) && e.offset == (if 0x66 in b then 0 else 512)
    && NoAddress(e) && e.modrm == 0 && !e.hasModrm && !e.hasSib && e.dispBytes == 0 && e.dispFetched == 0 && e.immFetched == 0
  }

  ghost predicate Seen(t: Tables, s: State) {
    var b, e := s.bytes, s.inst;
    match s.handler
    case Prefix => PrefixesThere(s)
    case SecondOpcode =>
      && |b| == e.prefixes + 1 && e.opcodeBytes == 2 && b[e.prefixes] == 0x0F && PrefixesRead(b[..e.prefixes], e.rex, e.addr32, e.ssePrefix)
      && e.offset == (if 0x66 in b[..e.prefixes] then 0 else 512) && NoAddress(e) && e.modrm == 0
    case ModRm => OpcodeRead(t, b, e) && NoAddress(e) && e.modrm == 0
    case Sib => OpcodeRead(t, b, e) && ModrmRead(b, e) && Addresses(e) && e.modrm % 8 == 4 && NoAddress(e) && e.hasSib
    case Disp => OpcodeRead(t, b, e) && ModrmRead(b, e) && SibRead(b, e) && AddressRead(e) && e.hasModrm && !e.memory
    case Imm =>
      && OpcodeRead(t, b, e) && ModrmRead(b, e) && SibRead(b, e) && AddressRead(e) && ImmRead(t, e)
      && e.dispFetched == e.dispBytes
    case Complete => Format(t, b, e)
    case _ => false
  }

  // Bytes that follow change nothing of what was read.
  lemma StillRead(t: Tables, b: seq<nat>, c: seq<nat>, e: Inst)
    ensures OpcodeRead(t, b, e) ==> OpcodeRead(t, b + c, e)
    ensures ModrmRead(b, e) ==> ModrmRead(b + c, e)
    ensures SibRead(b, e) ==> SibRead(b + c, e)
  {
    hide PrefixesRead;
    if e.prefixes < |b| { assert (b + c)[..e.prefixes] == b[..e.prefixes]; }
  }

  // ---- one byte ----

  // All bytes up to the immediate are there.
  ghost predicate ReadUpTo(t: Tables, s: State) {
    var b, e := s.bytes, s.inst;
    && OpcodeRead(t, b, e) && ModrmRead(b, e) && SibRead(b, e) && AddressRead(e)
    && e.dispFetched == e.dispBytes && e.immFetched == 0 && |b| == HeadLength(e) + e.dispBytes
  }

  lemma ImmediateSizes(kind: Immediate, addr32: bool)
    ensures ImmediateSize(kind, addr32, ImmSize(kind, addr32))
  {
  }

  lemma SeenImmediate(t: Tables, s: State)
    requires ReadUpTo(t, s) && (s.inst.memory <==> s.inst.hasModrm && s.inst.modrm / 64 != 3)
    requires
      var e := s.inst;
      e.imm == if e.hasModrm then t.grouped(e.opcode, e.offset, e.modrm, e.ssePrefix) else t.plain(e.opcode, e.offset)
    ensures Seen(t, ToImmediate(s))
  {
    hide PrefixesRead, ImmSize, ImmediateSize;
    ImmediateSizes(s.inst.imm, s.inst.addr32);
  }

  lemma SeenDone(t: Tables, s: State)
    requires ReadUpTo(t, s) && s.inst.hasModrm
    ensures Seen(t, ModrmDone(t, s))
  {
    hide PrefixesRead, ToImmediate, Seen;
    var x := s.inst;
    SeenImmediate(t, WithInst(s, x.(memory := x.modrm / 64 != 3, imm := t.grouped(x.opcode, x.offset, x.modrm, x.ssePrefix))));
  }

  // The opcode is there, and nothing behind it.
  ghost predicate OpcodeThere(s: State) {
    var b, e := s.bytes, s.inst;
    && |b| == e.prefixes + e.opcodeBytes && e.prefixes < |b| && PrefixesRead(b[..e.prefixes], e.rex, e.addr32, e.ssePrefix) && !PrefixByte(b[e.prefixes])
    && (if b[e.prefixes] == 0x0F
        then e.prefixes + 1 < |b| && e.opcodeBytes == 2 && e.opcode == 0x100 + b[e.prefixes + 1]
        else e.opcodeBytes == 1 && e.opcode == b[e.prefixes])
    && e.offset == (if 0x66 in b[..e.prefixes] then 0 else 512)
    && NoAddress(e) && e.modrm == 0 && !e.hasModrm && !e.hasSib && e.dispBytes == 0 && e.dispFetched == 0 && e.immFetched == 0
  }

  lemma SeenOpcode(t: Tables, s: State)
    requires OpcodeThere(s)
    ensures Seen(t, AfterOpcode(t, s))
  {
    hide PrefixesRead, ToImmediate;
    var y := AtOffset(s.inst);
    if !t.hasModrm(y.opcode) {
      SeenImmediate(t, WithInst(s, y.(imm := t.plain(y.opcode, y.offset))));
    }
  }

  // Address, displacement and immediate come after everything before them.
  lemma HeadFrame(t: Tables, b: seq<nat>, x: Inst, y: Inst)
    requires y == x.(base := y.base, index := y.index, dispBytes := y.dispBytes, dispFetched := y.dispFetched,
                     immFetched := y.immFetched, busy := y.busy, length := y.length)
    ensures OpcodeRead(t, b, y) == OpcodeRead(t, b, x)
    ensures ModrmRead(b, y) == ModrmRead(b, x) && SibRead(b, y) == SibRead(b, x) && HeadLength(y) == HeadLength(x)
  {
    hide PrefixesRead;
  }

  ghost predicate HeadThere(t: Tables, s: State) {
    var b, e := s.bytes, s.inst;
    && OpcodeRead(t, b, e) && ModrmRead(b, e) && |b| == HeadLength(e) && e.hasModrm
    && e.base == None && e.index == None && !e.memory && e.dispBytes == 0 && e.dispFetched == 0 && e.immFetched == 0
  }

  lemma SeenModrm(t: Tables, s: State)
    requires HeadThere(t, s) && !s.inst.hasSib && s.inst.sib == 0
    ensures Seen(t, AfterModrm(t, s))
  {
    hide PrefixesRead, ModrmDone, ImmRead;
    var x := s.inst;
    var mod := if x.opcode / 4 * 4 == 0x120 then 3 else x.modrm / 64;
    if mod == 3 {
      SeenDone(t, s);
    } else if x.modrm % 8 != 4 {
      var y := ModrmParts(x, mod);
      HeadFrame(t, s.bytes, x, y);
      if y.dispBytes == 0 { SeenDone(t, WithInst(s, y)); }
    }
  }

  lemma SibAddress(x: Inst)
    requires x.hasSib && Addresses(x) && x.modrm % 8 == 4 && x.base == None && x.index == None && x.dispBytes == 0
    ensures AddressRead(SibParts(x))
    ensures SibParts(x) == x.(base := SibParts(x).base, index := SibParts(x).index, dispBytes := SibParts(x).dispBytes)
  {
  }

  lemma SeenSib(t: Tables, s: State)
    requires HeadThere(t, s) && SibRead(s.bytes, s.inst) && s.inst.hasSib
    ensures Seen(t, AfterSib(t, s))
  {
    hide PrefixesRead, ModrmDone, SibParts, AddressRead, OpcodeRead, ImmRead;
    var z := SibParts(s.inst);
    SibAddress(s.inst);
    HeadFrame(t, s.bytes, s.inst, z);
    if z.dispBytes == 0 { SeenDone(t, WithInst(s, z)); }
  }

  // ---- prefixes ----

  lemma NoPrefixes()
    ensures PrefixesRead([], 0, false, 0)
  {
  }

  lemma NextRepeat(p: seq<nat>, b: nat, ssePrefix: nat)
    requires RepeatRead(p, ssePrefix)
    ensures RepeatRead(p + [b], if RepeatByte(b) then b - 0xF0 else if b == 0x66 && ssePrefix == 0 then 1 else ssePrefix)
  {
    var q := p + [b];
    assert q[|p|] == b && forall i :: 0 <= i < |p| ==> q[i] == p[i];
    if RepeatByte(b) {
      assert LastRepeat(q, |p|);
    } else if k: nat :| LastRepeat(p, k) && ssePrefix == p[k] - 0xF0 {
      assert LastRepeat(q, k);
    }
  }

  ghost predicate LegacyEffect(x: Inst, y: Inst, b: nat) {
    && y.rex == x.rex && y.addr32 == (x.addr32 || b == 0x67)
    && y.ssePrefix == (if RepeatByte(b) then b - 0xF0 else if b == 0x66 && x.ssePrefix == 0 then 1 else x.ssePrefix)
    && y.offset == (if b == 0x66 then 0 else x.offset)
    && y == x.(addr32 := y.addr32, ssePrefix := y.ssePrefix, offset := y.offset)
  }

  lemma LegacyPrefixEffect(x: Inst, b: nat)
    ensures LegacyEffect(x, WithLegacyPrefix(x, b), b)
  {
    if b == 0xF2 {
    } else if b == 0xF3 {
    } else if b == 0x67 {
    } else {
    }
  }

  lemma PrefixEffect(x: Inst, b: nat)
    ensures
      var y := WithPrefix(x, b);
      && y.rex == (if RexByte(b) then b else 0) && y.addr32 == (x.addr32 || b == 0x67)
      && y.ssePrefix == (if RepeatByte(b) then b - 0xF0 else if b == 0x66 && x.ssePrefix == 0 then 1 else x.ssePrefix)
      && y.offset == (if b == 0x66 then 0 else x.offset)
      && y == x.(prefixes := x.prefixes + 1, rex := y.rex, addr32 := y.addr32, ssePrefix := y.ssePrefix, offset := y.offset)
  {
    hide WithLegacyPrefix;
    LegacyPrefixEffect(x.(prefixes := x.prefixes + 1, rex := 0), b);
  }

  lemma NextPrefixRead(p: seq<nat>, b: nat, x: Inst)
    requires PrefixesRead(p, x.rex, x.addr32, x.ssePrefix) && PrefixByte(b)
    requires x.offset == if 0x66 in p then 0 else 512
    ensures
      var y := WithPrefix(x, b);
      && PrefixesRead(p + [b], y.rex, y.addr32, y.ssePrefix) && y.offset == (if 0x66 in p + [b] then 0 else 512)
      && y == x.(prefixes := x.prefixes + 1, rex := y.rex, addr32 := y.addr32, ssePrefix := y.ssePrefix, offset := y.offset)
  {
    hide RepeatRead, WithPrefix;
    PrefixEffect(x, b);
    NextRepeat(p, b, x.ssePrefix);
    var q := p + [b];
    assert q[|p|] == b && forall i :: 0 <= i < |p| ==> q[i] == p[i];
    assert forall v :: v in q <==> v in p || v == b;
  }

  lemma PrefixBytes(b: nat)
    ensures IsPrefix(b) == PrefixByte(b)
  {
  }

  // ---- a stretch of bytes ----

  // The byte after some prefixes.
  lemma PrefixSeen(t: Tables, s: State, f: Fetched)
    requires PrefixesThere(s)
    ensures Seen(t, AfterPrefix(t, Took(s, f), f.data))
  {
    hide AfterOpcode, WithPrefix, IsPrefix, PrefixByte, PrefixesRead;
    var r, b := Took(s, f), f.data;
    PrefixBytes(b);
    assert r.bytes[..|s.bytes|] == s.bytes && r.bytes[|s.bytes|] == b;
    if IsPrefix(b) {
      NextPrefixRead(s.bytes, b, s.inst);
    } else if b != 0x0F {
      SeenOpcode(t, WithInst(r, r.inst.(opcodeBytes := 1, opcode := b)));
    }
  }

  lemma FirstByteSeen(t: Tables, f: Fetched)
    ensures Seen(t, AfterPrefix(t, Took(IDLE, f).(addr := f.vaddr, inst := Fresh(f.vaddr)), f.data))
  {
    hide AfterPrefix, PrefixesRead, Seen;
    NoPrefixes();
    PrefixSeen(t, IDLE.(inst := Fresh(f.vaddr), addr := f.vaddr), f);
  }

  lemma SecondOpcodeSeen(t: Tables, s: State, f: Fetched)
    requires s.handler == SecondOpcode && LengthOk(s) && Seen(t, s)
    ensures Seen(t, AfterOpcode(t, WithInst(Took(s, f), s.inst.(opcode := 0x100 + f.data))))
  {
    hide AfterOpcode, PrefixesRead;
    var r := WithInst(Took(s, f), s.inst.(opcode := 0x100 + f.data));
    assert r.bytes[..s.inst.prefixes] == s.bytes[..s.inst.prefixes];
    SeenOpcode(t, r);
  }

  lemma ModrmSeen(t: Tables, s: State, f: Fetched)
    requires s.handler == ModRm && LengthOk(s) && Seen(t, s)
    ensures Seen(t, AfterModrm(t, WithInst(Took(s, f), s.inst.(modrm := f.data))))
  {
    hide AfterModrm, PrefixesRead;
    StillRead(t, s.bytes, [f.data], s.inst);
    SeenModrm(t, WithInst(Took(s, f), s.inst.(modrm := f.data)));
  }

  lemma SibSeen(t: Tables, s: State, f: Fetched)
    requires s.handler == Sib && LengthOk(s) && Seen(t, s)
    ensures Seen(t, AfterSib(t, WithInst(Took(s, f), s.inst.(sib := f.data))))
  {
    hide AfterSib, PrefixesRead;
    StillRead(t, s.bytes, [f.data], s.inst);
    SeenSib(t, WithInst(Took(s, f), s.inst.(sib := f.data)));
  }

  lemma DispSeen(t: Tables, cache: seq<Inst>, s: State, f: Fetched)
    requires CacheOk(cache) && s.handler == Disp && LengthOk(s) && Seen(t, s)
    ensures Seen(t, Step(t, cache, s, f))
  {
    hide ModrmDone, PrefixesRead, ImmRead;
    StillRead(t, s.bytes, [f.data], s.inst);
    var r := WithInst(Took(s, f), s.inst.(dispFetched := s.inst.dispFetched + 1));
    HeadFrame(t, r.bytes, s.inst, r.inst);
    if r.inst.dispFetched == r.inst.dispBytes { SeenDone(t, r); }
  }

  lemma ImmSeen(t: Tables, cache: seq<Inst>, s: State, f: Fetched)
    requires CacheOk(cache) && s.handler == Imm && LengthOk(s) && Seen(t, s)
    ensures Seen(t, Step(t, cache, s, f))
  {
    hide OpcodeRead, ModrmRead, SibRead, ImmediateSize;
    StillRead(t, s.bytes, [f.data], s.inst);
    var r := Step(t, cache, s, f);
    HeadFrame(t, r.bytes, s.inst, r.inst);
  }

  lemma SeenPrefixes(t: Tables, s: State)
    requires s.handler == Prefix && Seen(t, s)
    ensures PrefixesThere(s)
  {
  }

  lemma StepSeen(t: Tables, cache: seq<Inst>, s: State, f: Fetched)
    requires CacheOk(cache) && LengthOk(s) && (s.handler == Start ==> !Hit(cache, f.vaddr))
    requires s.handler != Start ==> Seen(t, s)
    ensures Seen(t, Step(t, cache, s, f))
  {
    hide Seen, AfterPrefix, AfterOpcode, AfterModrm, AfterSib, ModrmDone, Completed;
    match s.handler
    case Start => FirstByteSeen(t, f);
    case Prefix => SeenPrefixes(t, s); PrefixSeen(t, s, f);
    case SecondOpcode => SecondOpcodeSeen(t, s, f);
    case ModRm => ModrmSeen(t, s, f);
    case Sib => SibSeen(t, s, f);
    case Disp => DispSeen(t, cache, s, f);
    case Imm => ImmSeen(t, cache, s, f);
  }

  lemma {:induction false} FeedSeen(t: Tables, cache: seq<Inst>, s: State, input: seq<Fetched>)
    requires CacheOk(cache) && Decoding(s) && s.handler != Start && Seen(t, s)
    ensures Seen(t, Feed(t, cache, s, input).state)
    decreases |input|
  {
    hide Step, Decoding, LengthOk, Seen;
    if s.handler != Complete && input != [] {
      NotWhole(s);
      StepDecoding(t, cache, s, input[0]);
      StepSeen(t, cache, s, input[0]);
      FeedSeen(t, cache, Step(t, cache, s, input[0]), input[1..]);
    }
  }

  // A completed instruction is what the bytes taken say.
  lemma DecodedFormat(t: Tables, cache: seq<Inst>, input: seq<Fetched>)
    requires CacheOk(cache) && input != [] && !Hit(cache, input[0].vaddr)
    ensures Seen(t, Feed(t, cache, IDLE, input).state)
    ensures
      var r := Feed(t, cache, IDLE, input);
      r.state.handler == Complete ==> Format(t, Data(input[..r.taken]), r.state.inst) && r.state.inst.vaddr == input[0].vaddr
  {
    hide Step, LengthOk, Decoding, Format;
    IdleOk();
    StepDecoding(t, cache, IDLE, input[0]);
    StepSeen(t, cache, IDLE, input[0]);
    FeedSeen(t, cache, Step(t, cache, IDLE, input[0]), input[1..]);
    LengthIsSumOfParts(t, cache, input);
  }

  // ---- there is one way to read a stream of bytes ----

  lemma OneRepeat(p: seq<nat>, m: nat, n: nat)
    requires RepeatRead(p, m) && RepeatRead(p, n)
    ensures m == n
  {
    if k: nat :| LastRepeat(p, k) && m == p[k] - 0xF0 {
      var j: nat :| LastRepeat(p, j) && n == p[j] - 0xF0;
      assert j == k;
    }
  }

  ghost predicate SameOpcode(x: Inst, y: Inst) {
    && x.prefixes == y.prefixes && x.rex == y.rex && x.addr32 == y.addr32 && x.ssePrefix == y.ssePrefix
    && x.opcodeBytes == y.opcodeBytes && x.opcode == y.opcode && x.offset == y.offset && x.hasModrm == y.hasModrm
  }

  lemma OneOpcode(t: Tables, a: seq<nat>, b: seq<nat>, x: Inst, y: Inst)
    requires a <= b && OpcodeRead(t, a, x) && OpcodeRead(t, b, y)
    ensures SameOpcode(x, y)
  {
    hide PrefixByte, RepeatRead;
    var n := x.prefixes;
    assert n == y.prefixes;
    assert a[..n] == b[..n];
    OneRepeat(a[..n], x.ssePrefix, y.ssePrefix);
  }

  lemma OneModrm(a: seq<nat>, b: seq<nat>, x: Inst, y: Inst)
    requires a <= b && SameOpcode(x, y) && ModrmRead(a, x) && ModrmRead(b, y)
    ensures x.modrm == y.modrm
  {
  }

  lemma OneAddress(a: seq<nat>, b: seq<nat>, x: Inst, y: Inst)
    requires a <= b && SameOpcode(x, y) && x.modrm == y.modrm
    requires SibRead(a, x) && SibRead(b, y) && AddressRead(x) && AddressRead(y)
    ensures x.hasSib == y.hasSib && x.sib == y.sib && x.dispBytes == y.dispBytes && x.base == y.base && x.index == y.index
  {
  }

  lemma OneImmediate(t: Tables, x: Inst, y: Inst)
    requires SameOpcode(x, y) && x.modrm == y.modrm && ImmRead(t, x) && ImmRead(t, y)
    ensures x.imm == y.imm && x.memory == y.memory && x.immBytes == y.immBytes
  {
  }

  // Of two instructions at the start of the same bytes neither is longer.
  lemma FormatUnique(t: Tables, a: seq<nat>, b: seq<nat>, x: Inst, y: Inst)
    requires a <= b && Format(t, a, x) && Format(t, b, y)
    ensures a == b && y == x.(vaddr := y.vaddr)
  {
    hide OpcodeRead, ModrmRead, SibRead, AddressRead, ImmRead;
    OneOpcode(t, a, b, x, y);
    OneModrm(a, b, x, y);
    OneAddress(a, b, x, y);
    OneImmediate(t, x, y);
  }

  lemma NoneAmongPrefixes(t: Tables, s: State, a: seq<nat>, e: Inst)
    requires s.handler == Prefix && Seen(t, s) && a <= s.bytes
    ensures !Format(t, a, e)
  {
    hide PrefixByte, RepeatRead, SibRead, ModrmRead, AddressRead, ImmRead;
  }

  lemma NoneBeforeSecondOpcode(t: Tables, s: State, a: seq<nat>, e: Inst)
    requires s.handler == SecondOpcode && Seen(t, s) && a <= s.bytes
    ensures !Format(t, a, e)
  {
    hide RepeatRead, SibRead, ModrmRead, AddressRead, ImmRead;
  }

  lemma NoneBeforeModrm(t: Tables, s: State, a: seq<nat>, e: Inst)
    requires LengthOk(s) && s.handler in {ModRm, Sib} && Seen(t, s) && a <= s.bytes
    ensures !Format(t, a, e)
  {
    hide OpcodeRead, AddressRead, ImmRead;
    if Format(t, a, e) {
      OneOpcode(t, a, s.bytes, e, s.inst);
      if s.handler == Sib { OneModrm(a, s.bytes, e, s.inst); }
    }
  }

  lemma NoneBeforeEnd(t: Tables, s: State, a: seq<nat>, e: Inst)
    requires LengthOk(s) && s.handler in {Disp, Imm} && Seen(t, s) && a <= s.bytes
    ensures !Format(t, a, e)
  {
    hide OpcodeRead, ModrmRead, SibRead, AddressRead, ImmRead;
    if Format(t, a, e) {
      OneOpcode(t, a, s.bytes, e, s.inst);
      OneModrm(a, s.bytes, e, s.inst);
      OneAddress(a, s.bytes, e, s.inst);
      if s.handler == Imm { OneImmediate(t, e, s.inst); }
    }
  }

  // While the decoder waits, no instruction lies in the bytes it has.
  lemma NoneYet(t: Tables, s: State, a: seq<nat>, e: Inst)
    requires LengthOk(s) && s.handler != Start && Seen(t, s) && a <= s.bytes
    ensures !Format(t, a, e)
  {
    hide Seen, Format;
    match s.handler
    case Prefix => NoneAmongPrefixes(t, s, a, e);
    case SecondOpcode => NoneBeforeSecondOpcode(t, s, a, e);
    case ModRm => NoneBeforeModrm(t, s, a, e);
    case Sib => NoneBeforeModrm(t, s, a, e);
    case Disp => NoneBeforeEnd(t, s, a, e);
    case Imm => NoneBeforeEnd(t, s, a, e);
  }

  ghost predicate Takes(t: Tables, cache: seq<Inst>, input: seq<Fetched>, n: nat, e: Inst)
    requires CacheOk(cache)
  {
    var r := Feed(t, cache, IDLE, input);
    r.state.handler == Complete && r.taken == n && r.state.inst == e
  }

  lemma DataPrefix(input: seq<Fetched>, m: nat, n: nat)
    requires m <= n <= |input|
    ensures Data(input[..m]) <= Data(input[..n])
  {
  }

  // The decoder takes n bytes as instruction e if and only if these bytes are
  // the instruction e.
  lemma TakesExactlyFormat(t: Tables, cache: seq<Inst>, input: seq<Fetched>, n: nat, e: Inst)
    requires CacheOk(cache) && input != [] && !Hit(cache, input[0].vaddr)
    ensures Takes(t, cache, input, n, e) <==>
      n <= |input| && e.vaddr == input[0].vaddr && Format(t, Data(input[..n]), e)
  {
    hide Format, Seen, LengthOk, Data, Feed;
    var r := Feed(t, cache, IDLE, input);
    DecodedFormat(t, cache, input);
    LengthIsSumOfParts(t, cache, input);
    if n <= |input| && e.vaddr == input[0].vaddr && Format(t, Data(input[..n]), e) {
      if r.state.handler == Complete {
        if n <= r.taken {
          DataPrefix(input, n, r.taken);
          FormatUnique(t, Data(input[..n]), Data(input[..r.taken]), e, r.state.inst);
        } else {
          DataPrefix(input, r.taken, n);
          FormatUnique(t, Data(input[..r.taken]), Data(input[..n]), r.state.inst, e);
        }
      } else {
        Waiting(t, cache, input);
        DataPrefix(input, n, |input|);
        NoneYet(t, r.state, Data(input[..n]), e);
      }
    }
  }

  lemma Waiting(t: Tables, cache: seq<Inst>, input: seq<Fetched>)
    requires CacheOk(cache) && input != [] && !Hit(cache, input[0].vaddr)
    requires Feed(t, cache, IDLE, input).state.handler != Complete
    ensures LengthOk(Feed(t, cache, IDLE, input).state) && Feed(t, cache, IDLE, input).state.handler != Start
  {
    hide Step, LengthOk, Decoding;
    IdleOk();
    StepDecoding(t, cache, IDLE, input[0]);
    FeedDecoding(t, cache, Step(t, cache, IDLE, input[0]), input[1..]);
    NotWhole(Feed(t, cache, IDLE, input).state);
  }

  // ---- the registers of an address ----

  // Base and index of a memory operand as the architecture has them: section
  // 2.1.5 (tables 2-2 and 2-3) and section 2.2.1.2 of volume 2 of the Intel 64
  // and IA-32 Architectures Software Developer's Manual.
  function BaseRegister(e: Inst): Option<nat> {
    var mod, rm, high := e.modrm / 64, e.modrm % 8, e.rex % 2 * 8;
    if !Addresses(e) then None
    else if rm == 4 then (if mod == 0 && e.sib % 8 == 5 then None else Some(e.sib % 8 + high))
    else if mod == 0 && rm == 5 then None
    else Some(rm + high)
  }

  function IndexRegister(e: Inst): Option<nat> {
    var index := e.sib / 8 % 8 + e.rex / 2 % 2 * 8;
    if !Addresses(e) || e.modrm % 8 != 4 || index == 4 then None else Some(index)
  }

  // The decoder knows the base register if and only if there is none, or it is
  // in the ModRM byte with a displacement, or in the SIB byte without one; and
  // the index register if and only if it is not register 12.
  lemma RegistersFoundExactly(t: Tables, cache: seq<Inst>, input: seq<Fetched>, n: nat, e: Inst)
    requires CacheOk(cache) && input != [] && !Hit(cache, input[0].vaddr) && Takes(t, cache, input, n, e)
    ensures e.base == BaseRegister(e) <==>
      BaseRegister(e) == None || (e.modrm / 64 != 0 <==> e.modrm % 8 != 4)
    ensures e.index == IndexRegister(e) <==> IndexRegister(e) != Some(12)
  {
    hide OpcodeRead, ModrmRead, ImmRead, Takes;
    TakesExactlyFormat(t, cache, input, n, e);
  }

  function OneOpcodeTable(opcode: nat): Tables {
    Tables(op => op == opcode, (op, offset) => NoImm, (op, offset, modrm, sse) => NoImm)
  }

  function Mov(): Inst {
    Fresh(100).(busy := true, length := 2, opcodeBytes := 1, opcode := 0x8B, hasModrm := true, memory := true)
  }

  lemma MovFormat()
    ensures Format(OneOpcodeTable(0x8B), [0x8B, 0x00], Mov())
  {
    assert [0x8B, 0x00][..0] == [];
    NoPrefixes();
  }

  // mov eax, [rax] is decoded without its base register.
  lemma BaseMissed()
    ensures Takes(OneOpcodeTable(0x8B), Cold(), [Fetched(0x8B, 100, 101), Fetched(0x00, 101, 102)], 2, Mov())
    ensures Mov().base == None && BaseRegister(Mov()) == Some(0)
  {
    hide Takes, Format;
    var input := [Fetched(0x8B, 100, 101), Fetched(0x00, 101, 102)];
    assert input[..2] == input && Data(input) == [0x8B, 0x00];
    MovFormat();
    TakesExactlyFormat(OneOpcodeTable(0x8B), Cold(), input, 2, Mov());
  }
}
