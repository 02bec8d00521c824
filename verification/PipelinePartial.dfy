// The partial flush on write-back.  It unlinks the squashed entries of the
// reorder buffer but hands the decoder's entries back to the supplier as they
// are, so it keeps the graph exactly when no such entry is still linked to an
// instruction that stays.
module PipelinePartial {
  import opened PipelineState
  import opened PipelineSteps
  import opened PipelineInvariant
  import opened PipelineFrame
  import opened PipelineWriteBack
  import opened PipelineSquash

  // ---- unlinking one instruction ----

  ghost predicate OnlyLinks(a: seq<Inst>, b: seq<Inst>) {
    && |a| == |b|
    && forall x :: 0 <= x < |a| ==>
      && b[x] == a[x].(depIn := b[x].depIn, depOut := b[x].depOut, foresight := b[x].foresight)
      && |b[x].depIn| == |a[x].depIn| && |b[x].depOut| == |a[x].depOut|
      && (AllNull(a[x].depIn) ==> AllNull(b[x].depIn))
      && (AllNull(a[x].depOut) ==> AllNull(b[x].depOut))
  }

  lemma UnlinkInCuts(insts: seq<Inst>, live: set<nat>, h: nat, i: nat, cpus: nat)
    requires InstsWf(insts, cpus) && (forall x :: x in live ==> x < |insts|) && h in live && Edges(insts, live)
    ensures
      var r := UnlinkIn(insts, h, i, cpus);
      Edges(r, live) && OnlyLinks(insts, r)
    ensures
      var r := UnlinkIn(insts, h, i, cpus);
      && (forall x :: 0 <= x < |insts| && x != h ==> r[x].depIn == insts[x].depIn)
      && r[h].depIn == ClearSlot(insts[h].depIn, i)
  {
    var r := UnlinkIn(insts, h, i, cpus);
    if i < |insts[h].depIn| && insts[h].depIn[i].peer.Some? {
      var g, k := insts[h].depIn[i].peer.value, insts[h].depIn[i].back;
      assert InLinkOk(insts, live, h, i);
      CutEdges(insts, r, live, g, k, h, i);
    }
  }

  lemma {:induction false} UnlinkFromCuts(insts: seq<Inst>, live: set<nat>, h: nat, i: nat, cpus: nat)
    requires InstsWf(insts, cpus) && (forall x :: x in live ==> x < |insts|) && h in live && Edges(insts, live)
    requires forall j :: 0 <= j < i && j < |insts[h].depIn| ==> insts[h].depIn[j].peer.None?
    ensures
      var r := UnlinkFrom(insts, h, i, cpus);
      && Edges(r, live) && OnlyLinks(insts, r) && AllNull(r[h].depIn)
      && forall x :: 0 <= x < |insts| && x != h ==> r[x].depIn == insts[x].depIn
    decreases |insts[h].depIn| - i
  {
    if i < |insts[h].depIn| {
      UnlinkInCuts(insts, live, h, i, cpus);
      UnlinkFromCuts(UnlinkIn(insts, h, i, cpus), live, h, i + 1, cpus);
    }
  }

  // ---- the loop over the reorder buffer ----

  ghost predicate Unlinked(a: seq<Inst>, b: seq<Inst>, live: set<nat>, gone: seq<nat>)
    requires forall x :: x in live ==> x < |b|
  {
    && OnlyLinks(a, b) && Edges(b, live) && AllBelow(gone, |b|)
    && (forall x :: x in gone ==> AllNull(b[x].depIn))
    && (forall x :: 0 <= x < |a| && x !in gone ==> b[x].depIn == a[x].depIn)
  }

  lemma UnlinkedStep(a: seq<Inst>, m: seq<Inst>, b: seq<Inst>, live: set<nat>, h: nat, gone: seq<nat>)
    requires |a| == |m| == |b| && forall x :: x in live ==> x < |b|
    requires OnlyLinks(a, m) && h < |a| && AllNull(m[h].depIn)
    requires forall x :: 0 <= x < |a| && x != h ==> m[x].depIn == a[x].depIn
    requires Unlinked(m, b, live, gone)
    ensures Unlinked(a, b, live, [h] + gone)
  {
    forall x | x in [h] + gone
      ensures AllNull(b[x].depIn)
    {
      if x !in gone { assert x == h && OnlyLinks(m, b); }
    }
  }

  // Which entries leave, and in which order.
  ghost predicate BehindLists(b: Behind, i: nat, c: nat, r: Behind) {
    && i <= |b.rob| && AllBelow(b.rob, |b.insts|)
    && r.rob == b.rob[..i] + Keep(b.rob[i..], b.insts, c, 0)
    && r.supplier == b.supplier + Squashed(b.rob[i..], b.insts, c, 0)
  }

  lemma EntryLists(b: Behind, i: nat, c: nat, cpus: nat)
    requires BehindWf(b, cpus) && i < |b.rob|
    ensures
      var t, rest := SquashEntry(b, i, cpus), b.rob[i + 1..];
      && |t.rob| == |b.rob| - 1 && t.rob[..i] == b.rob[..i] && t.rob[i..] == rest
      && Keep(t.rob[i..], t.insts, c, 0) == Keep(rest, b.insts, c, 0)
      && Squashed(t.rob[i..], t.insts, c, 0) == Squashed(rest, b.insts, c, 0)
  {
    var t, rest := SquashEntry(b, i, cpus), b.rob[i + 1..];
    assert t.rob[i..] == rest;
    KeepSame(rest, b.insts, t.insts, c, 0, 0);
  }

  lemma HitFirst(insts: seq<Inst>, q: seq<nat>, c: nat, supplier: seq<nat>)
    requires AllBelow(q, |insts|) && q != [] && insts[q[0]].cpu == c
    ensures Keep(q, insts, c, 0) == Keep(q[1..], insts, c, 0)
    ensures supplier + Squashed(q, insts, c, 0) == supplier + [q[0]] + Squashed(q[1..], insts, c, 0)
  {
  }

  lemma BehindListsHit(b: Behind, i: nat, c: nat, cpus: nat, r: Behind)
    requires BehindWf(b, cpus) && i < |b.rob| && b.insts[b.rob[i]].cpu == c
    requires BehindLists(SquashEntry(b, i, cpus), i, c, r)
    ensures r.rob == b.rob[..i] + Keep(b.rob[i..], b.insts, c, 0)
    ensures r.supplier == b.supplier + Squashed(b.rob[i..], b.insts, c, 0)
  {
    EntryLists(b, i, c, cpus);
    assert b.rob[i..][1..] == b.rob[i + 1..];
    HitFirst(b.insts, b.rob[i..], c, b.supplier);
  }

  lemma BehindListsMiss(b: Behind, i: nat, c: nat, r: Behind)
    requires AllBelow(b.rob, |b.insts|) && i < |b.rob| && b.insts[b.rob[i]].cpu != c
    requires BehindLists(b, i + 1, c, r)
    ensures BehindLists(b, i, c, r)
  {
    var h, rest := b.rob[i], b.rob[i + 1..];
    assert b.rob[i..] == [h] + rest;
    var keep := Keep(rest, b.insts, c, 0);
    assert b.rob[..i + 1] + keep == b.rob[..i] + ([h] + keep);
  }

  lemma {:induction false} SquashBehindLists(b: Behind, i: nat, c: nat, cpus: nat)
    requires BehindWf(b, cpus) && i <= |b.rob|
    ensures BehindLists(b, i, c, SquashBehind(b, i, c, cpus))
    decreases |b.rob| - i
  {
    if i < |b.rob| {
      if b.insts[b.rob[i]].cpu == c {
        SquashBehindLists(SquashEntry(b, i, cpus), i, c, cpus);
        BehindListsHit(b, i, c, cpus, SquashBehind(b, i, c, cpus));
      } else {
        SquashBehindLists(b, i + 1, c, cpus);
        BehindListsMiss(b, i, c, SquashBehind(b, i, c, cpus));
      }
    }
  }

  // What happens to the links.
  ghost predicate LinksGuarded(b: Behind, i: nat, live: set<nat>) {
    && (forall x :: x in live ==> x < |b.insts|) && Edges(b.insts, live)
    && forall j :: i <= j < |b.rob| ==> b.rob[j] in live
  }

  lemma EntryUnlinked(b: Behind, i: nat, cpus: nat, live: set<nat>)
    requires BehindWf(b, cpus) && i < |b.rob| && LinksGuarded(b, i, live)
    ensures
      var t := SquashEntry(b, i, cpus);
      && Edges(t.insts, live) && OnlyLinks(b.insts, t.insts) && AllNull(t.insts[b.rob[i]].depIn)
      && (forall x :: 0 <= x < |b.insts| && x != b.rob[i] ==> t.insts[x].depIn == b.insts[x].depIn)
  {
    UnlinkFromCuts(b.insts, live, b.rob[i], 0, cpus);
  }

  ghost function Gone(b: Behind, i: nat, c: nat): seq<nat>
    requires AllBelow(b.rob, |b.insts|) && i <= |b.rob|
  {
    Squashed(b.rob[i..], b.insts, c, 0)
  }

  lemma GoneStep(b: Behind, i: nat, c: nat, cpus: nat)
    requires BehindWf(b, cpus) && i < |b.rob|
    ensures b.insts[b.rob[i]].cpu == c ==> Gone(b, i, c) == [b.rob[i]] + Gone(SquashEntry(b, i, cpus), i, c)
    ensures b.insts[b.rob[i]].cpu != c ==> Gone(b, i, c) == Gone(b, i + 1, c)
  {
    var h, rest, t := b.rob[i], b.rob[i + 1..], SquashEntry(b, i, cpus);
    EntryLists(b, i, c, cpus);
    assert b.rob[i..] == [h] + rest;
  }

  lemma UnlinkedSelf(b: Behind, live: set<nat>)
    requires LinksGuarded(b, |b.rob|, live)
    ensures Unlinked(b.insts, b.insts, live, [])
  {
  }

  lemma EntryGuarded(b: Behind, i: nat, cpus: nat, live: set<nat>)
    requires BehindWf(b, cpus) && i < |b.rob| && LinksGuarded(b, i, live)
    ensures LinksGuarded(SquashEntry(b, i, cpus), i, live)
  {
    hide Edges, OnlyLinks, UnlinkFrom;
    EntryUnlinked(b, i, cpus, live);
    var t := SquashEntry(b, i, cpus);
    assert forall j :: i <= j < |t.rob| ==> t.rob[j] == b.rob[j + 1];
  }

  lemma {:induction false} SquashBehindLinks(b: Behind, i: nat, c: nat, cpus: nat, live: set<nat>)
    requires BehindWf(b, cpus) && i <= |b.rob| && LinksGuarded(b, i, live)
    ensures Unlinked(b.insts, SquashBehind(b, i, c, cpus).insts, live, Gone(b, i, c))
    decreases |b.rob| - i
  {
    hide Unlinked, OnlyLinks, Edges, SquashEntry, Gone;
    if i == |b.rob| {
      UnlinkedSelf(b, live);
      assert Gone(b, i, c) == [] by { NothingGone(b, c); }
    } else {
      GoneStep(b, i, c, cpus);
      if b.insts[b.rob[i]].cpu == c {
        var t := SquashEntry(b, i, cpus);
        EntryUnlinked(b, i, cpus, live);
        EntryGuarded(b, i, cpus, live);
        assert |t.rob| == |b.rob| - 1 by { EntryLists(b, i, c, cpus); }
        SquashBehindLinks(t, i, c, cpus, live);
        UnlinkedStep(b.insts, t.insts, SquashBehind(t, i, c, cpus).insts, live, b.rob[i], Gone(t, i, c));
      } else {
        SquashBehindLinks(b, i + 1, c, cpus, live);
      }
    }
  }

  lemma NothingGone(b: Behind, c: nat)
    requires AllBelow(b.rob, |b.insts|)
    ensures Gone(b, |b.rob|, c) == []
  {
  }

  // ---- the whole partial flush ----

  // The flushing branch is still in flight and its cpu's write-backs are done.
  ghost predicate CanFlushOn(s: State, h: nat)
    requires Wf(s)
  {
    && h < |s.insts| && Live(s, h)
    && forall i :: 0 <= i < |s.response| ==> s.insts[s.response[i]].cpu != s.insts[h].cpu
  }

  predicate DropsDecoder(x: Inst) {
    x.status != Decoding
  }

  // Squashing by id is squashing the part behind the branch.
  lemma RobSplit(rob: seq<nat>, insts: seq<Inst>, p: nat, c: nat, from: nat)
    requires AllBelow(rob, |insts|) && Ascending(rob, insts) && p < |rob|
    requires c == insts[rob[p]].cpu && from == insts[rob[p]].id + 1
    ensures Keep(rob, insts, c, from) == rob[..p + 1] + Keep(rob[p + 1..], insts, c, 0)
    ensures Squashed(rob, insts, c, from) == Squashed(rob[p + 1..], insts, c, 0)
  {
    SplitAt(rob, p + 1, insts, c, from);
  }

  lemma SplitAt(q: seq<nat>, p: nat, insts: seq<Inst>, c: nat, from: nat)
    requires AllBelow(q, |insts|) && p <= |q|
    requires forall i :: 0 <= i < p ==> !Hit(insts[q[i]], c, from)
    requires forall i :: p <= i < |q| ==> (Hit(insts[q[i]], c, from) <==> Hit(insts[q[i]], c, 0))
    ensures Keep(q, insts, c, from) == q[..p] + Keep(q[p..], insts, c, 0)
    ensures Squashed(q, insts, c, from) == Squashed(q[p..], insts, c, 0)
  {
    assert q == q[..p] + q[p..];
    assert Keep(q, insts, c, from) == Keep(q[..p], insts, c, from) + Keep(q[p..], insts, c, from) by {
      KeepConcat(q[..p], q[p..], insts, c, from);
    }
    assert Squashed(q, insts, c, from) == Squashed(q[..p], insts, c, from) + Squashed(q[p..], insts, c, from) by {
      SquashedConcat(q[..p], q[p..], insts, c, from);
    }
    KeepNone(q[..p], insts, c, from);
    KeepSame(q[p..], insts, insts, c, from, 0);
  }

  lemma RobUntouched(s: State, h: nat)
    requires Wf(s) && IdsOk(s) && h < |s.insts| && h in s.decoder[s.insts[h].cpu]
    ensures
      var c, id := s.insts[h].cpu, s.insts[h].id;
      Keep(s.rob, s.insts, c, id + 1) == s.rob && Squashed(s.rob, s.insts, c, id + 1) == []
  {
    var c, id := s.insts[h].cpu, s.insts[h].id;
    assert DecoderIdsOk(s, c);
    var k :| 0 <= k < |s.decoder[c]| && s.decoder[c][k] == h;
    KeepNone(s.rob, s.insts, c, id + 1);
  }

  ghost function BehindOf(s: State, h: nat): (b: Behind)
    requires Wf(s) && h < |s.insts|
    ensures BehindWf(b, |s.decoder|) && b.rob == s.rob && SameIdentity(s.insts, b.insts)
  {
    var t := SquashYounger(s, h);
    Behind(t.insts, t.supplier, t.rob)
  }

  lemma ListsBehind(b: Behind, insts: seq<Inst>, p: nat, c: nat, from: nat, r: Behind)
    requires AllBelow(b.rob, |b.insts|) && SameIdentity(insts, b.insts) && Ascending(b.rob, insts) && p < |b.rob|
    requires c == insts[b.rob[p]].cpu && from == insts[b.rob[p]].id + 1
    requires BehindLists(b, p + 1, c, r)
    ensures r.rob == Keep(b.rob, insts, c, from)
    ensures r.supplier == b.supplier + Squashed(b.rob, insts, c, from)
  {
    hide Keep, Squashed, Ascending;
    RobSplit(b.rob, insts, p, c, from);
    KeepSame(b.rob[p + 1..], insts, b.insts, c, 0, 0);
  }

  lemma PartialIsBehind(s: State, h: nat)
    requires Wf(s) && h < |s.insts|
    ensures
      var t, b := PartialFlush(s, h), BehindOf(s, h);
      var r := if h in s.rob then SquashBehind(b, IndexOf(s.rob, h) + 1, s.insts[h].cpu, |s.decoder|) else b;
      t.insts == r.insts && t.supplier == r.supplier && t.rob == r.rob
  {
    hide SquashBehind, UnlinkFrom;
  }

  lemma PartialLists(s: State, h: nat)
    requires Wf(s) && PoolOk(s) && IdsOk(s) && CanFlushOn(s, h)
    ensures
      var t, c, from := PartialFlush(s, h), s.insts[h].cpu, s.insts[h].id + 1;
      && t.rob == Keep(s.rob, s.insts, c, from)
      && t.supplier == BehindOf(s, h).supplier + Squashed(s.rob, s.insts, c, from)
  {
    hide PartialFlush, SquashBehind, BehindOf, Keep, Squashed, BehindLists;
    var c, b := s.insts[h].cpu, BehindOf(s, h);
    PartialIsBehind(s, h);
    if h in s.rob {
      var p := IndexOf(s.rob, h);
      SquashBehindLists(b, p + 1, c, |s.decoder|);
      ListsBehind(b, s.insts, p, c, s.insts[h].id + 1, SquashBehind(b, p + 1, c, |s.decoder|));
    } else {
      RobUntouched(s, h);
    }
  }

  lemma BranchMarked(s: State, h: nat)
    requires Wf(s) && PoolOk(s) && h < |s.insts|
    requires Edges(s.insts, LiveSet(s)) && CountsOk(s.insts, LiveSet(s))
    ensures Edges(BehindOf(s, h).insts, LiveSet(s)) && OnlyLinks(s.insts, BehindOf(s, h).insts)
    ensures SameLinks(s.insts, BehindOf(s, h).insts)
  {
    EdgesFrame(s.insts, BehindOf(s, h).insts, LiveSet(s));
  }

  lemma RobLive(s: State)
    requires Wf(s)
    ensures forall j :: 0 <= j < |s.rob| ==> s.rob[j] in LiveSet(s)
  {
    assert forall j :: 0 <= j < |s.rob| ==> s.rob[j] in s.rob;
  }

  lemma PartialLinks(s: State, h: nat)
    requires Wf(s) && PoolOk(s) && IdsOk(s) && CanFlushOn(s, h)
    requires Edges(s.insts, LiveSet(s)) && CountsOk(s.insts, LiveSet(s))
    ensures Unlinked(s.insts, PartialFlush(s, h).insts, LiveSet(s), Squashed(s.rob, s.insts, s.insts[h].cpu, s.insts[h].id + 1))
  {
    BranchMarked(s, h);
    if h in s.rob {
      PartialLinksBehind(s, h);
    } else {
      RobUntouched(s, h);
    }
  }

  lemma UnlinkedBase(a: seq<Inst>, m: seq<Inst>, b: seq<Inst>, live: set<nat>, gone: seq<nat>)
    requires |a| == |m| == |b| && forall x :: x in live ==> x < |b|
    requires OnlyLinks(a, m) && SameLinks(a, m) && Unlinked(m, b, live, gone)
    ensures Unlinked(a, b, live, gone)
  {
  }

  lemma GoneIs(b: Behind, insts: seq<Inst>, p: nat, c: nat, from: nat)
    requires AllBelow(b.rob, |b.insts|) && SameIdentity(insts, b.insts) && Ascending(b.rob, insts) && p < |b.rob|
    requires c == insts[b.rob[p]].cpu && from == insts[b.rob[p]].id + 1
    ensures Gone(b, p + 1, c) == Squashed(b.rob, insts, c, from)
  {
    RobSplit(b.rob, insts, p, c, from);
    KeepSame(b.rob[p + 1..], insts, b.insts, c, 0, 0);
  }

  lemma BehindUnlinked(b: Behind, insts: seq<Inst>, live: set<nat>, p: nat, c: nat, from: nat, cpus: nat, r: Behind)
    requires BehindWf(b, cpus) && SameIdentity(insts, b.insts) && Ascending(b.rob, insts) && p < |b.rob|
    requires c == insts[b.rob[p]].cpu && from == insts[b.rob[p]].id + 1
    requires LinksGuarded(b, p + 1, live) && OnlyLinks(insts, b.insts) && SameLinks(insts, b.insts)
    requires r == SquashBehind(b, p + 1, c, cpus)
    ensures Unlinked(insts, r.insts, live, Squashed(b.rob, insts, c, from))
  {
    hide SquashBehind, Squashed, Unlinked, OnlyLinks, SameLinks, Edges, Ascending, Gone;
    SquashBehindLinks(b, p + 1, c, cpus, live);
    GoneIs(b, insts, p, c, from);
    UnlinkedBase(insts, b.insts, r.insts, live, Gone(b, p + 1, c));
  }

  lemma PartialLinksBehind(s: State, h: nat)
    requires Wf(s) && IdsOk(s) && h in s.rob
    requires Edges(BehindOf(s, h).insts, LiveSet(s)) && OnlyLinks(s.insts, BehindOf(s, h).insts)
    requires SameLinks(s.insts, BehindOf(s, h).insts)
    ensures Unlinked(s.insts, PartialFlush(s, h).insts, LiveSet(s), Squashed(s.rob, s.insts, s.insts[h].cpu, s.insts[h].id + 1))
  {
    hide SquashBehind, Edges, OnlyLinks, SameLinks, Unlinked, PartialFlush, DecoderIdsOk, BehindOf;
    var c, b, p := s.insts[h].cpu, BehindOf(s, h), IndexOf(s.rob, h);
    assert LinksGuarded(b, p + 1, LiveSet(s)) by { RobLive(s); }
    PartialIsBehind(s, h);
    BehindUnlinked(b, s.insts, LiveSet(s), p, c, s.insts[h].id + 1, |s.decoder|, SquashBehind(b, p + 1, c, |s.decoder|));
  }

  lemma PartialFields(s: State, h: nat)
    requires Wf(s) && h < |s.insts|
    ensures
      var t, c, from, drop := PartialFlush(s, h), s.insts[h].cpu, s.insts[h].id + 1, DropsDecoder(s.insts[h]);
      && t.decoder == (if drop then s.decoder[c := []] else s.decoder)
      && t.generic == Keep(s.generic, s.insts, c, from)
      && t.ls == Keep(s.ls, s.insts, c, from)
      && t.io == Keep(s.io, s.insts, c, from)
      && t.units == KeepUnits(s.units, s.insts, c, from)
      && t.nextId == s.nextId && t.trace == s.trace && t.response == s.response
      && t.writeReady == s.writeReady && t.mustIssue == s.mustIssue
      && t.regs == s.regs[c := DropRegs(s.regs[c], s.insts, from)]
  {
  }

  lemma OnlyLinksSame(a: seq<Inst>, b: seq<Inst>)
    requires OnlyLinks(a, b)
    ensures SameIdentity(a, b)
    ensures forall x :: 0 <= x < |a| ==> a[x].kind == b[x].kind && a[x].status == b[x].status && a[x].resolved == b[x].resolved
  {
  }

  // ---- which instructions leave, whatever the graph looks like ----

  lemma UnlinkInStatus(insts: seq<Inst>, h: nat, i: nat, cpus: nat)
    requires InstsWf(insts, cpus) && h < |insts|
    ensures forall x :: 0 <= x < |insts| ==> UnlinkIn(insts, h, i, cpus)[x].status == insts[x].status
  {
  }

  lemma {:induction false} UnlinkFromStatus(insts: seq<Inst>, h: nat, i: nat, cpus: nat)
    requires InstsWf(insts, cpus) && h < |insts|
    ensures forall x :: 0 <= x < |insts| ==> UnlinkFrom(insts, h, i, cpus)[x].status == insts[x].status
    decreases |insts[h].depIn| - i
  {
    hide UnlinkIn, InstsWf;
    if i < |insts[h].depIn| {
      UnlinkInStatus(insts, h, i, cpus);
      UnlinkFromStatus(UnlinkIn(insts, h, i, cpus), h, i + 1, cpus);
    }
  }

  lemma {:induction false} SquashBehindStatus(b: Behind, i: nat, c: nat, cpus: nat)
    requires BehindWf(b, cpus) && i <= |b.rob|
    ensures forall x :: 0 <= x < |b.insts| ==> SquashBehind(b, i, c, cpus).insts[x].status == b.insts[x].status
    decreases |b.rob| - i
  {
    hide UnlinkFrom;
    if i < |b.rob| {
      if b.insts[b.rob[i]].cpu == c {
        UnlinkFromStatus(b.insts, b.rob[i], 0, cpus);
        SquashBehindStatus(SquashEntry(b, i, cpus), i, c, cpus);
      } else {
        SquashBehindStatus(b, i + 1, c, cpus);
      }
    }
  }

  lemma BehindSupplier(s: State, h: nat)
    requires Wf(s) && h < |s.insts|
    ensures BehindOf(s, h).supplier == s.supplier + Dropped(s, s.insts[h].cpu, DropsDecoder(s.insts[h]))
  {
  }

  lemma PartialStatuses(s: State, h: nat)
    requires Wf(s) && h < |s.insts|
    ensures
      var t := PartialFlush(s, h);
      && SameIdentity(s.insts, t.insts)
      && forall x :: 0 <= x < |s.insts| ==> s.insts[x].kind == t.insts[x].kind && s.insts[x].status == t.insts[x].status
  {
    hide SquashBehind, PartialFlush;
    PartialIsBehind(s, h);
    if h in s.rob {
      SquashBehindStatus(BehindOf(s, h), IndexOf(s.rob, h) + 1, s.insts[h].cpu, |s.decoder|);
    }
  }

  lemma PartialSquashes(s: State, h: nat)
    requires Wf(s) && PoolOk(s) && IdsOk(s) && CanFlushOn(s, h)
    ensures Squashing(s, PartialFlush(s, h), s.insts[h].cpu, s.insts[h].id + 1, DropsDecoder(s.insts[h]))
  {
    hide PartialFlush, BehindOf, Keep, Squashed, Dropped, DropsDecoder, IdsOk, PoolOk;
    BehindSupplier(s, h);
    PartialLists(s, h);
    PartialStatuses(s, h);
    PartialFields(s, h);
  }

  // What a caller can check before a partial flush: none of the decoder's
  // entries that go back to the supplier waits for an instruction that stays,
  // and none is still the producer of a register.
  ghost predicate NoOrphans(s: State, h: nat)
    requires Wf(s) && h < |s.insts|
  {
    var c, from := s.insts[h].cpu, s.insts[h].id + 1;
    DropsDecoder(s.insts[h]) ==>
      && (forall d, i :: d in s.decoder[c] && 0 <= i < |s.insts[d].depIn| && s.insts[d].depIn[i].peer.Some? ==>
           !Survives(s, s.insts[d].depIn[i].peer.value, c, from, true))
      && (forall r :: r in s.regs[c] && s.insts[s.regs[c][r]].id < from ==> s.regs[c][r] !in s.decoder[c])
  }

  // ---- the guard is sufficient ----

  lemma PartialInLinks(s: State, h: nat, x: nat, i: nat)
    requires Wf(s) && PoolOk(s) && IdsOk(s) && StatusOk(s) && CanFlushOn(s, h)
    requires x < |s.insts| && i < |s.insts[x].depIn| && s.insts[x].depIn[i].peer.Some?
    requires InLinkOk(s.insts, LiveSet(s), x, i)
    requires Survives(s, x, s.insts[h].cpu, s.insts[h].id + 1, DropsDecoder(s.insts[h]))
    ensures Survives(s, s.insts[x].depIn[i].peer.value, s.insts[h].cpu, s.insts[h].id + 1, DropsDecoder(s.insts[h]))
  {
    var c, g := s.insts[h].cpu, s.insts[x].depIn[i].peer.value;
    DecoderYounger(s, c);
    assert g in LiveSet(s);
    if h in s.rob { assert RobStatusOk(s.insts[h]); }
  }

  lemma DecoderYounger(s: State, c: nat)
    requires Wf(s) && PoolOk(s) && IdsOk(s) && c < |s.decoder|
    ensures forall x, g :: x in s.rob && s.insts[x].cpu == c && g in s.decoder[c] ==> s.insts[x].id < s.insts[g].id
  {
    assert DecoderIdsOk(s, c);
  }
}
