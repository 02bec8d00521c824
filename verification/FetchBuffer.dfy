// src/cpu/fetch_buffer.cpp: the ring of fetched bytes of one processor.
module FetchBuffer {
  import opened Common

  const UINT32: nat := 0x1_0000_0000

  // fetch_buffer_el_t; the last three fields mean nothing for a byte whose
  // fetch raised an exception, and keep what the slot held before.
  datatype Byte = Byte(vaddr: nat, exception: bool, paddr: nat, branch: bool, next: nat)

  datatype Ring = Ring(
    buffer: seq<Byte>, readPos: nat, writePos: nat, available: nat,
    disabled: bool,  // disable_until_flush
    stall: nat,      // disable_due_to_cache_miss
    pc: nat          // the speculative pc of the processor
  )

  // The answers of the memory, the cache and the branch predictor for a byte.
  datatype Reply = Reply(exception: bool, paddr: nat, penalty: nat, target: Option<nat>)

  ghost predicate RingOk(r: Ring) {
    && 0 < |r.buffer| && 2 * |r.buffer| <= UINT32 && r.readPos < |r.buffer| && r.available <= |r.buffer|
    && r.writePos == (r.readPos + |r.buffer| - r.available) % |r.buffer|
  }

  lemma ModOnce(x: nat, n: nat)
    requires 0 < n && x < 2 * n
    ensures x % n == if x < n then x else x - n
  {
    Product(n, x / n);
    assert x == n * (x / n) + x % n;
  }

  lemma Product(n: nat, q: nat)
    ensures q >= 2 ==> n * q >= 2 * n
    ensures q == 0 ==> n * q == 0
    ensures q == 1 ==> n * q == n
  {
    assert n * q == 2 * n + n * (q - 2);
  }

  // Where the i-th byte in the buffer is.
  function Place(r: Ring, i: nat): (p: nat)
    requires |r.buffer| > 0
    ensures p < |r.buffer|
  {
    (r.readPos + i) % |r.buffer|
  }

  function Occupancy(r: Ring): nat
    requires r.available <= |r.buffer|
  {
    |r.buffer| - r.available
  }

  function Contents(r: Ring): (c: seq<Byte>)
    requires |r.buffer| > 0 && r.available <= |r.buffer|
    ensures |c| == Occupancy(r) && forall i :: 0 <= i < |c| ==> c[i] == r.buffer[Place(r, i)]
  {
    seq(Occupancy(r), i requires 0 <= i < Occupancy(r) => r.buffer[Place(r, i)])
  }

  // Control flow through the buffer: each byte leads to the next one, the last
  // to the speculative pc; a faulting byte is the last, and stops the fetch.
  ghost predicate Chain(c: seq<Byte>, pc: nat, disabled: bool) {
    && (forall i :: 0 <= i < |c| - 1 ==> !c[i].exception && c[i].next == c[i + 1].vaddr)
    && (c != [] ==>
         var last := c[|c| - 1];
         if last.exception then disabled && last.vaddr == pc else last.next == pc)
  }

  ghost predicate Inv(r: Ring) {
    RingOk(r) && Chain(Contents(r), r.pc, r.disabled)
  }

  // ---- operations ----

  // One pass of the loop of fetch; the flag tells whether it goes on.
  datatype Fetched = Fetched(ring: Ring, more: bool)

  function FetchOne(r: Ring, reply: Reply): (f: Fetched)
    requires r.writePos < |r.buffer| && r.available > 0
    ensures |f.ring.buffer| == |r.buffer| && f.ring.available == r.available - 1 && f.ring.writePos < |r.buffer|
  {
    var was := r.buffer[r.writePos];
    var b :=
      if reply.exception then was.(vaddr := r.pc, exception := true)
      else if reply.target.Some? then Byte(r.pc, false, reply.paddr, true, reply.target.value)
      else Byte(r.pc, false, reply.paddr, false, r.pc + 1);
    var s := r.(buffer := r.buffer[r.writePos := b], writePos := (r.writePos + 1) % |r.buffer|, available := r.available - 1,
                stall := if reply.penalty > 1 && reply.penalty > r.stall then reply.penalty - 1 else r.stall,
                disabled := r.disabled || reply.exception, pc := if reply.exception then r.pc else b.next);
    Fetched(s, !reply.exception && reply.target.None?)
  }

  function FetchUpTo(r: Ring, max: nat, replies: seq<Reply>): (s: Ring)
    requires r.writePos < |r.buffer| && max <= r.available && max <= |replies|
    ensures |s.buffer| == |r.buffer|
    decreases max
  {
    if max == 0 then r
    else
      var f := FetchOne(r, replies[0]);
      if f.more then FetchUpTo(f.ring, max - 1, replies[1..]) else f.ring
  }

  function Fetch(r: Ring, width: nat, replies: seq<Reply>): (s: Ring)
    requires r.writePos < |r.buffer| && width <= |replies|
  {
    if r.disabled then r
    else if r.stall > 0 then r.(stall := r.stall - 1)
    else FetchUpTo(r, if r.available > width then width else r.available, replies)
  }

  function GetByte(r: Ring): (s: Ring)
    requires r.readPos < |r.buffer| && r.available < |r.buffer|
  {
    r.(readPos := (r.readPos + 1) % |r.buffer|, available := r.available + 1)
  }

  // skip_bytes: the number skipped and the next address; skipping nothing
  // returns what a slot outside the contents holds.
  datatype Skipped = Skipped(ring: Ring, count: nat, next: nat)

  function Skip(r: Ring, n: nat): (s: Skipped)
    requires r.readPos < |r.buffer| < UINT32 && r.available <= |r.buffer|
    ensures s.count <= n && s.count <= Occupancy(r)
  {
    var count := if n < Occupancy(r) then n else Occupancy(r);
    var last := (r.readPos + count + (UINT32 - 1)) % UINT32 % |r.buffer|;
    Skipped(r.(readPos := (r.readPos + count) % |r.buffer|, available := r.available + count), count, r.buffer[last].next)
  }

  function Flushed(r: Ring, pc: nat): Ring {
    r.(available := |r.buffer|, readPos := 0, writePos := 0, disabled := false, stall := 0, pc := pc)
  }

  // ---- the contents under the operations ----

  lemma FetchAppends(r: Ring, reply: Reply)
    requires RingOk(r) && r.available > 0
    ensures
      var s := FetchOne(r, reply).ring;
      && r.writePos < |r.buffer| && RingOk(s)
      && Contents(s) == Contents(r) + [s.buffer[r.writePos]]
  {
    var n, occ := |r.buffer|, Occupancy(r);
    var s := FetchOne(r, reply).ring;
    ModOnce(r.readPos + occ, n);
    ModOnce(r.readPos + occ + 1, n);
    ModOnce(r.writePos + 1, n);
    forall i | 0 <= i < occ + 1
      ensures Contents(s)[i] == (Contents(r) + [s.buffer[r.writePos]])[i]
    {
      ModOnce(r.readPos + i, n);
    }
  }

  // ---- what one cycle of fetching brings ----

  // After such a byte nothing more is fetched in the cycle.
  predicate Stops(reply: Reply) {
    reply.exception || reply.target.Some?
  }

  // How many bytes are fetched: all that are allowed, or those up to the first
  // that stops the fetch.
  function Stretch(max: nat, replies: seq<Reply>): (n: nat)
    requires max <= |replies|
    ensures n <= max && (n == 0 <==> max == 0)
    ensures forall i :: 0 <= i < n - 1 ==> !Stops(replies[i])
    ensures n < max ==> Stops(replies[n - 1])
  {
    if max == 0 then 0 else if Stops(replies[0]) then 1 else 1 + Stretch(max - 1, replies[1..])
  }

  // A byte at vaddr, with what the environment answered for it.
  ghost predicate Answers(b: Byte, vaddr: nat, reply: Reply) {
    && b.vaddr == vaddr && b.exception == reply.exception
    && (!reply.exception ==>
         && b.paddr == reply.paddr && b.branch == reply.target.Some?
         && b.next == if reply.target.Some? then reply.target.value else vaddr + 1)
  }

  // The stall asked for by the slowest of some accesses.
  ghost predicate Slowest(before: nat, after: nat, replies: seq<Reply>) {
    && after >= before
    && (forall i :: 0 <= i < |replies| && replies[i].penalty > 1 ==> after >= replies[i].penalty - 1)
    && (after == before || exists i :: 0 <= i < |replies| && replies[i].penalty > 1 && after == replies[i].penalty - 1)
  }

  // n bytes were fetched in a row from the speculative pc on; only the last of
  // them can stop the fetch, and it says where to go on.
  ghost predicate Brings(r: Ring, s: Ring, n: nat, replies: seq<Reply>)
    requires RingOk(r) && n <= |replies|
  {
    && RingOk(s) && |s.buffer| == |r.buffer| && s.readPos == r.readPos && s.available + n == r.available
    && |Contents(s)| == |Contents(r)| + n && Contents(s)[..|Contents(r)|] == Contents(r)
    && (forall i :: 0 <= i < n ==> Answers(Contents(s)[|Contents(r)| + i], r.pc + i, replies[i]))
    && s.pc == (if n > 0 && replies[n - 1].exception then r.pc + n - 1
                else if n > 0 && replies[n - 1].target.Some? then replies[n - 1].target.value
                else r.pc + n)
    && (s.disabled <==> r.disabled || (n > 0 && replies[n - 1].exception))
    && Slowest(r.stall, s.stall, replies[..n])
  }

  lemma FirstByte(r: Ring, reply: Reply)
    requires RingOk(r) && r.available > 0
    ensures r.writePos < |r.buffer|
    ensures
      var f := FetchOne(r, reply);
      && RingOk(f.ring) && f.ring.readPos == r.readPos && f.ring.available + 1 == r.available
      && |Contents(f.ring)| == |Contents(r)| + 1 && Contents(f.ring)[..|Contents(r)|] == Contents(r)
      && Answers(Contents(f.ring)[|Contents(r)|], r.pc, reply)
      && f.ring.pc == (if reply.exception then r.pc else if reply.target.Some? then reply.target.value else r.pc + 1)
      && (f.ring.disabled <==> r.disabled || reply.exception) && (f.more <==> !Stops(reply))
      && Slowest(r.stall, f.ring.stall, [reply])
  {
    hide Contents, RingOk;
    FetchAppends(r, reply);
    assert [reply][0] == reply;
  }

  lemma SlowestCons(before: nat, mid: nat, after: nat, replies: seq<Reply>)
    requires replies != [] && Slowest(before, mid, replies[..1]) && Slowest(mid, after, replies[1..])
    ensures Slowest(before, after, replies)
  {
    assert replies[..1][0] == replies[0];
    forall i | 0 <= i < |replies| && replies[i].penalty > 1
      ensures after >= replies[i].penalty - 1
    {
      if i > 0 { assert replies[1..][i - 1] == replies[i]; }
    }
    if after != before {
      if after == mid {
        assert after == replies[0].penalty - 1;
      } else {
        var i :| 0 <= i < |replies[1..]| && replies[1..][i].penalty > 1 && after == replies[1..][i].penalty - 1;
        assert replies[i + 1] == replies[1..][i];
      }
    }
  }

  lemma {:induction false} FetchUpToBrings(r: Ring, max: nat, replies: seq<Reply>)
    requires RingOk(r) && max <= r.available && max <= |replies|
    ensures r.writePos < |r.buffer| && Brings(r, FetchUpTo(r, max, replies), Stretch(max, replies), replies)
    decreases max
  {
    hide Contents, FetchOne, Slowest, RingOk, Answers;
    ModBelow(r);
    if max == 0 {
      NoneSlow(r.stall);
      assert replies[..0] == [];
    } else {
      FirstByte(r, replies[0]);
      var f := FetchOne(r, replies[0]);
      assert replies[..1] == [replies[0]];
      if f.more {
        FetchUpToBrings(f.ring, max - 1, replies[1..]);
        BringsCons(r, f.ring, FetchUpTo(f.ring, max - 1, replies[1..]), Stretch(max - 1, replies[1..]), replies);
      }
    }
  }

  lemma NoneSlow(stall: nat)
    ensures Slowest(stall, stall, [])
  {
  }

  lemma BringsCons(r: Ring, m: Ring, s: Ring, n: nat, replies: seq<Reply>)
    requires RingOk(r) && RingOk(m) && n < |replies| && !Stops(replies[0])
    requires Brings(r, m, 1, replies) && Brings(m, s, n, replies[1..])
    ensures Brings(r, s, n + 1, replies)
  {
    hide RingOk, Slowest;
    var a, b, c := Contents(r), Contents(m), Contents(s);
    assert c[..|b|][..|a|] == c[..|a|];
    forall i | 0 <= i < n + 1
      ensures Answers(c[|a| + i], r.pc + i, replies[i])
    {
      if i == 0 {
        assert c[..|b|][|a|] == c[|a|];
      } else {
        assert c[|a| + i] == c[|b| + (i - 1)] && replies[1..][i - 1] == replies[i];
      }
    }
    assert replies[..n + 1][..1] == replies[..1] && replies[..n + 1][1..] == replies[1..][..n];
    SlowestCons(r.stall, m.stall, s.stall, replies[..n + 1]);
  }

  // One cycle: nothing while disabled; while stalled, only the wait; otherwise
  // as many bytes as width, space and control flow allow.
  lemma FetchBrings(r: Ring, width: nat, replies: seq<Reply>)
    requires RingOk(r) && width <= |replies|
    ensures r.writePos < |r.buffer|
    ensures r.disabled ==> Fetch(r, width, replies) == r
    ensures !r.disabled && r.stall > 0 ==> Fetch(r, width, replies) == r.(stall := r.stall - 1)
    ensures !r.disabled && r.stall == 0 ==>
      Brings(r, Fetch(r, width, replies), Stretch(if width < r.available then width else r.available, replies), replies)
  {
    ModBelow(r);
    FetchUpToBrings(r, if width < r.available then width else r.available, replies);
  }

  lemma FetchKeepsInv(r: Ring, reply: Reply)
    requires Inv(r) && r.available > 0 && !r.disabled
    ensures r.writePos < |r.buffer|
    ensures Inv(FetchOne(r, reply).ring)
    ensures FetchOne(r, reply).more ==> !FetchOne(r, reply).ring.disabled
  {
    hide RingOk, Contents;
    FetchAppends(r, reply);
    var s := FetchOne(r, reply).ring;
    var b := s.buffer[r.writePos];
    assert b.vaddr == r.pc && (b.exception <==> reply.exception) && (!b.exception ==> b.next == s.pc);
  }

  lemma {:induction false} FetchUpToKeepsInv(r: Ring, max: nat, replies: seq<Reply>)
    requires Inv(r) && max <= r.available && max <= |replies| && !r.disabled
    ensures r.writePos < |r.buffer|
    ensures Inv(FetchUpTo(r, max, replies))
    decreases max
  {
    hide Chain;
    assert r.writePos < |r.buffer| by { ModBelow(r); }
    if max > 0 {
      FetchKeepsInv(r, replies[0]);
      var f := FetchOne(r, replies[0]);
      if f.more { FetchUpToKeepsInv(f.ring, max - 1, replies[1..]); }
    }
  }

  lemma ModBelow(r: Ring)
    requires RingOk(r)
    ensures r.writePos < |r.buffer|
  {
  }

  lemma GetTakesFirst(r: Ring)
    requires RingOk(r) && Occupancy(r) > 0
    ensures RingOk(GetByte(r)) && Contents(GetByte(r)) == Contents(r)[1..] && r.buffer[r.readPos] == Contents(r)[0]
  {
    var n, occ := |r.buffer|, Occupancy(r);
    var s := GetByte(r);
    ModOnce(r.readPos, n);
    ModOnce(r.readPos + 1, n);
    ModOnce(r.readPos + occ, n);
    ModOnce(s.readPos + (occ - 1), n);
    forall i | 0 <= i < occ - 1
      ensures Contents(s)[i] == Contents(r)[i + 1]
    {
      ModOnce(s.readPos + i, n);
      ModOnce(r.readPos + i + 1, n);
    }
  }

  function Gets(r: Ring, n: nat): Ring
    requires RingOk(r) && n <= Occupancy(r)
    decreases n
  {
    if n == 0 then r
    else
      GetTakesFirst(r);
      Gets(GetByte(r), n - 1)
  }

  lemma {:induction false} GetsTake(r: Ring, n: nat)
    requires RingOk(r) && n <= Occupancy(r)
    ensures RingOk(Gets(r, n)) && Contents(Gets(r, n)) == Contents(r)[n..]
    ensures Gets(r, n) == r.(readPos := (r.readPos + n) % |r.buffer|, available := r.available + n)
    decreases n
  {
    hide RingOk, Contents;
    RingBounds(r);
    if n == 0 {
      ModOnce(r.readPos, |r.buffer|);
    } else {
      GetTakesFirst(r);
      GetsTake(GetByte(r), n - 1);
      assert Contents(r)[1..][n - 1..] == Contents(r)[n..];
      ModOnce(r.readPos + 1, |r.buffer|);
      ModOnce(r.readPos + n, |r.buffer|);
      ModOnce(GetByte(r).readPos + (n - 1), |r.buffer|);
    }
  }

  lemma RingBounds(r: Ring)
    requires RingOk(r)
    ensures 0 < |r.buffer| && r.readPos < |r.buffer| && r.available <= |r.buffer|
  {
  }

  // Skipping bytes that are there is getting them one by one: the same state,
  // and the address the last of them leads to.
  lemma SkipIsGets(r: Ring, n: nat)
    requires RingOk(r) && 1 <= n <= Occupancy(r)
    ensures Skip(r, n) == Skipped(Gets(r, n), n, Contents(r)[n - 1].next)
  {
    GetsTake(r, n);
    var last := r.readPos + n + (UINT32 - 1);
    assert last == UINT32 + (r.readPos + n - 1);
    ModOnce(r.readPos + n - 1, |r.buffer|);
    assert last % UINT32 == r.readPos + n - 1;
  }

  // ---- any run of the buffer ----

  datatype Op = DoFetch(replies: seq<Reply>) | DoGet | DoSkip(n: nat) | DoFlush(pc: nat)

  predicate Enabled(r: Ring, width: nat, op: Op)
    requires r.available <= |r.buffer|
  {
    match op
    case DoFetch(replies) => width <= |replies|
    case DoGet => Occupancy(r) > 0
    case DoSkip(n) => true
    case DoFlush(pc) => true
  }

  function Next(r: Ring, width: nat, op: Op): Ring
    requires r.readPos < |r.buffer| < UINT32 && r.writePos < |r.buffer| && r.available <= |r.buffer| && Enabled(r, width, op)
  {
    match op
    case DoFetch(replies) => Fetch(r, width, replies)
    case DoGet => GetByte(r)
    case DoSkip(n) => Skip(r, n).ring
    case DoFlush(pc) => Flushed(r, pc)
  }

  lemma DropKeepsChain(c: seq<Byte>, n: nat, pc: nat, disabled: bool)
    requires Chain(c, pc, disabled) && n <= |c|
    ensures Chain(c[n..], pc, disabled)
  {
    assert forall i :: 0 <= i < |c[n..]| ==> c[n..][i] == c[n + i];
  }

  lemma NextKeepsInv(r: Ring, width: nat, op: Op)
    requires Inv(r)
    ensures r.readPos < |r.buffer| < UINT32 && r.writePos < |r.buffer| && r.available <= |r.buffer|
    ensures Enabled(r, width, op) ==> Inv(Next(r, width, op))
  {
    hide Chain, Contents, GetByte, FetchUpTo, Flushed;
    ModBelow(r);
    if Enabled(r, width, op) {
      match op
      case DoFetch(replies) =>
        if !r.disabled && r.stall == 0 {
          FetchUpToKeepsInv(r, if r.available > width then width else r.available, replies);
        } else {
          WaitKeepsInv(r);
        }
      case DoGet =>
        GetTakesFirst(r);
        GetKeeps(r);
        DropKeepsChain(Contents(r), 1, r.pc, r.disabled);
      case DoSkip(n) => SkipKeepsInv(r, n);
      case DoFlush(pc) => FlushedOk(r, pc);
    }
  }

  lemma WaitKeepsInv(r: Ring)
    requires Inv(r)
    ensures r.stall > 0 ==> Inv(r.(stall := r.stall - 1))
  {
    if r.stall > 0 { assert Contents(r.(stall := r.stall - 1)) == Contents(r); }
  }

  lemma GetKeeps(r: Ring)
    requires RingOk(r) && Occupancy(r) > 0
    ensures GetByte(r).pc == r.pc && GetByte(r).disabled == r.disabled
  {
  }

  lemma SkipKeepsInv(r: Ring, n: nat)
    requires Inv(r)
    ensures r.readPos < |r.buffer| < UINT32 && r.available <= |r.buffer|
    ensures Inv(Skip(r, n).ring)
  {
    hide Chain, Contents;
    var count := Skip(r, n).count;
    GetsTake(r, count);
    DropKeepsChain(Contents(r), count, r.pc, r.disabled);
    assert Skip(r, n).ring == Gets(r, count);
  }

  // A flush empties the buffer and lets the fetch start again at pc.
  lemma FlushedOk(r: Ring, pc: nat)
    requires RingOk(r)
    ensures Inv(Flushed(r, pc)) && Contents(Flushed(r, pc)) == []
    ensures Flushed(r, pc).pc == pc && !Flushed(r, pc).disabled && Flushed(r, pc).stall == 0
  {
    ModOnce(0, |r.buffer|);
  }

  ghost predicate Run(r: Ring, width: nat, ops: seq<Op>, s: Ring)
    requires Inv(r)
    decreases |ops|
  {
    if ops == [] then s == r
    else NextKeepsInv(r, width, ops[0]); Enabled(r, width, ops[0]) && Run(Next(r, width, ops[0]), width, ops[1..], s)
  }

  // Along every run the bytes in the buffer are a chain of control flow that
  // ends at the speculative pc.
  lemma {:induction false} RunKeepsChain(r: Ring, width: nat, ops: seq<Op>, s: Ring)
    requires Inv(r) && Run(r, width, ops, s)
    ensures Inv(s)
    decreases |ops|
  {
    hide Inv, Next, Enabled;
    if ops != [] {
      NextKeepsInv(r, width, ops[0]);
      RunKeepsChain(Next(r, width, ops[0]), width, ops[1..], s);
    }
  }

  // ---- the code ----

  class Buffer {
    const buffer: array<Byte>
    const width: nat
    var readPos: nat
    var writePos: nat
    var available: nat
    var disabled: bool
    var stall: nat
    var pc: nat

    ghost predicate Valid()
      reads this, buffer
    {
      RingOk(View())
    }

    ghost function View(): Ring
      reads this, buffer
    {
      Ring(buffer[..], readPos, writePos, available, disabled, stall, pc)
    }

    // fetch, with the answers it will get
    method FetchCycle(replies: seq<Reply>)
      requires Valid() && width <= |replies|
      modifies this, buffer
      ensures View() == Fetch(old(View()), width, replies)
    {
      hide FetchOne;
      ModBelow(View());
      var max := if available > width then width else available;
      if disabled { return; }
      if stall > 0 {
        stall := stall - 1;
        return;
      }
      ghost var start := View();
      var i := 0;
      while i < max
        invariant i <= max && writePos < buffer.Length && max - i <= available
        invariant FetchUpTo(View(), max - i, replies[i..]) == FetchUpTo(start, max, replies)
      {
        assert replies[i..][0] == replies[i] && replies[i..][1..] == replies[i + 1..];
        var more := FetchByte(replies[i]);
        if !more { break; }
        i := i + 1;
      }
    }

    // The body of the loop; it ends the loop at a taken branch or an exception.
    method FetchByte(reply: Reply) returns (more: bool)
      requires writePos < buffer.Length && available > 0
      modifies this, buffer
      ensures Fetched(View(), more) == FetchOne(old(View()), reply)
    {
      more := true;
      var at := writePos;
      buffer[at] := buffer[at].(vaddr := pc);
      if reply.penalty > 1 && reply.penalty > stall {
        stall := reply.penalty - 1;
      }
      available := available - 1;
      writePos := (writePos + 1) % buffer.Length;
      if !reply.exception {
        buffer[at] := buffer[at].(exception := false, paddr := reply.paddr);
        if reply.target.Some? {
          buffer[at] := buffer[at].(branch := true, next := reply.target.value);
          pc := reply.target.value;
          more := false;
        } else {
          pc := pc + 1;
          buffer[at] := buffer[at].(branch := false, next := pc);
        }
      } else {
        buffer[at] := buffer[at].(exception := true);
        disabled := true;
        more := false;
      }
    }

    // get_byte
    method Get() returns (b: Byte)
      requires Valid() && available < buffer.Length
      modifies this
      ensures b == Contents(old(View()))[0] && View() == GetByte(old(View()))
    {
      GetTakesFirst(View());
      b := buffer[readPos];
      readPos := (readPos + 1) % buffer.Length;
      available := available + 1;
    }

    // skip_bytes
    method SkipBytes(n: nat) returns (next: nat, skipped: nat)
      requires Valid()
      modifies this
      ensures View() == Skip(old(View()), n).ring && skipped == Skip(old(View()), n).count && next == Skip(old(View()), n).next
    {
      skipped := buffer.Length - available;
      skipped := if n < skipped then n else skipped;
      var last := (readPos + skipped + (UINT32 - 1)) % UINT32 % buffer.Length;
      next := buffer[last].next;
      readPos := (readPos + skipped) % buffer.Length;
      available := available + skipped;
    }
  }
}
