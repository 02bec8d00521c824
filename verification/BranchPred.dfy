// src/cpu/branch_pred.cpp: the table of recent branches, searched through a
// hash of slots that is allowed to go stale.
module BranchPred {
  import opened Common
  import opened StaticList

  datatype Record = Record(proc: nat, addr: nat, target: nat, count: int)

  datatype Branch = Branch(addr: nat, target: nat, taken: bool)

  // ---- the table as a list, most recently updated first ----

  predicate Matches(r: Record, proc: nat, addr: nat) {
    r.proc == proc && r.addr == addr
  }

  function Find(t: seq<Record>, proc: nat, addr: nat): (r: Option<nat>)
    ensures r.Some? ==> r.value < |t| && Matches(t[r.value], proc, addr)
    ensures r.Some? ==> forall i :: 0 <= i < r.value ==> !Matches(t[i], proc, addr)
    ensures r.None? ==> forall i :: 0 <= i < |t| ==> !Matches(t[i], proc, addr)
  {
    if t == [] then None
    else if Matches(t[0], proc, addr) then Some(0)
    else
      var r := Find(t[1..], proc, addr);
      if r.None? then None else Some(r.value + 1)
  }

  // The two-sided counter saturates at -1 and 1.
  function Counted(count: int, taken: bool): int {
    var c := if taken then count + 1 else count - 1;
    if c > 1 then 1 else if c < -1 then -1 else c
  }

  function Updated(b: Branch, proc: nat, count: int): Record {
    Record(proc, b.addr, b.target, count)
  }

  // A known branch moves to the front; a new one enters there, and when the
  // table is full the last one leaves.
  function Add(t: seq<Record>, size: nat, b: Branch, proc: nat): (r: seq<Record>)
    requires |t| <= size && size > 0
  {
    var k := Find(t, proc, b.addr);
    if k.Some? then [Updated(b, proc, Counted(t[k.value].count, b.taken))] + (t[..k.value] + t[k.value + 1..])
    else [Updated(b, proc, if b.taken then 0 else -1)] + (if |t| < size then t else t[..size - 1])
  }

  function Flushed(t: seq<Record>, proc: nat): (r: seq<Record>)
    ensures |r| <= |t|
    ensures forall i :: 0 <= i < |r| ==> r[i] in t && r[i].proc != proc
  {
    if t == [] then []
    else if t[0].proc == proc then Flushed(t[1..], proc)
    else [t[0]] + Flushed(t[1..], proc)
  }

  ghost predicate KeysUnique(t: seq<Record>) {
    forall i, j :: 0 <= i < j < |t| ==> !Matches(t[j], t[i].proc, t[i].addr)
  }

  lemma AddKeepsKeys(t: seq<Record>, size: nat, b: Branch, proc: nat)
    requires |t| <= size && size > 0 && KeysUnique(t)
    ensures KeysUnique(Add(t, size, b, proc)) && |Add(t, size, b, proc)| <= size
  {
    var k := Find(t, proc, b.addr);
    var r := Add(t, size, b, proc);
    if k.Some? {
      assert forall i :: 1 <= i < |r| ==> r[i] == t[if i - 1 < k.value then i - 1 else i];
    } else {
      assert forall i :: 1 <= i < |r| ==> r[i] == t[i - 1];
    }
  }

  lemma {:induction false} FlushKeepsKeys(t: seq<Record>, proc: nat)
    requires KeysUnique(t)
    ensures KeysUnique(Flushed(t, proc))
  {
    if t != [] {
      assert forall i, j :: 0 <= i < j < |t[1..]| ==> t[1..][i] == t[i + 1] && t[1..][j] == t[j + 1];
      FlushKeepsKeys(t[1..], proc);
      var rest := Flushed(t[1..], proc);
      forall j | 0 <= j < |rest|
        ensures !Matches(rest[j], t[0].proc, t[0].addr)
      {
        var i :| 0 <= i < |t[1..]| && t[1..][i] == rest[j];
        assert t[i + 1] == rest[j];
      }
    }
  }

  // With unique keys, any entry that matches is the one a search finds.
  lemma MatchIsFound(t: seq<Record>, proc: nat, addr: nat, k: nat)
    requires KeysUnique(t) && k < |t| && Matches(t[k], proc, addr)
    ensures Find(t, proc, addr) == Some(k)
  {
  }

  lemma OthersDoNotMatch(t: seq<Record>, proc: nat, addr: nat, i: nat)
    requires KeysUnique(t) && i < |t| && Find(t, proc, addr) != Some(i)
    ensures !Matches(t[i], proc, addr)
  {
  }

  // ---- any run of updates and flushes ----

  datatype Op = Update(branch: Branch, proc: nat) | Flush(proc: nat)

  function Table(ops: seq<Op>, size: nat): (t: seq<Record>)
    requires size > 0
    ensures |t| <= size
    decreases |ops|
  {
    if ops == [] then []
    else
      var t := Table(ops[..|ops| - 1], size);
      match ops[|ops| - 1]
      case Update(b, proc) => AddSize(t, size, b, proc); Add(t, size, b, proc)
      case Flush(proc) => Flushed(t, proc)
  }

  lemma AddSize(t: seq<Record>, size: nat, b: Branch, proc: nat)
    requires |t| <= size && size > 0
    ensures |Add(t, size, b, proc)| <= size
  {
  }

  // When the branch of a record was last updated.
  function LastUpdate(ops: seq<Op>, proc: nat, addr: nat): (n: nat)
    ensures n <= |ops|
    ensures n < |ops| ==> ops[n].Update? && ops[n].proc == proc && ops[n].branch.addr == addr
    ensures forall i :: n < i < |ops| ==> !(ops[i].Update? && ops[i].proc == proc && ops[i].branch.addr == addr)
    decreases |ops|
  {
    if ops == [] then 0
    else
      var last := |ops| - 1;
      if ops[last].Update? && ops[last].proc == proc && ops[last].branch.addr == addr then last
      else
        var n := LastUpdate(ops[..last], proc, addr);
        if n == last then |ops| else n
  }

  // Every record carries the target of its last update.
  ghost predicate Recent(ops: seq<Op>, r: Record) {
    var n := LastUpdate(ops, r.proc, r.addr);
    n < |ops| && r.target == ops[n].branch.target && -1 <= r.count <= 1
  }

  ghost predicate InUpdateOrder(ops: seq<Op>, t: seq<Record>) {
    && (forall i :: 0 <= i < |t| ==> Recent(ops, t[i]))
    && (forall i, j :: 0 <= i < j < |t| ==>
         LastUpdate(ops, t[i].proc, t[i].addr) > LastUpdate(ops, t[j].proc, t[j].addr))
  }

  lemma LastUpdateStep(ops: seq<Op>, op: Op, proc: nat, addr: nat)
    ensures
      var n := LastUpdate(ops, proc, addr);
      LastUpdate(ops + [op], proc, addr) ==
        if op.Update? && op.proc == proc && op.branch.addr == addr then |ops| else if n == |ops| then |ops| + 1 else n
  {
    assert (ops + [op])[..|ops|] == ops;
  }

  lemma RecentStep(ops: seq<Op>, op: Op, r: Record)
    requires Recent(ops, r) && !(op.Update? && op.proc == r.proc && op.branch.addr == r.addr)
    ensures Recent(ops + [op], r)
    ensures LastUpdate(ops + [op], r.proc, r.addr) == LastUpdate(ops, r.proc, r.addr)
  {
    LastUpdateStep(ops, op, r.proc, r.addr);
  }

  lemma UpdateKeepsOrder(ops: seq<Op>, t: seq<Record>, size: nat, b: Branch, proc: nat)
    requires |t| <= size && size > 0 && KeysUnique(t) && InUpdateOrder(ops, t)
    ensures InUpdateOrder(ops + [Update(b, proc)], Add(t, size, b, proc))
  {
    hide LastUpdate, Find;
    var more, r := ops + [Update(b, proc)], Add(t, size, b, proc);
    var k := Find(t, proc, b.addr);
    LastUpdateStep(ops, Update(b, proc), proc, b.addr);
    assert Recent(more, r[0]);
    forall i | 1 <= i < |r|
      ensures Recent(more, r[i]) && LastUpdate(more, r[i].proc, r[i].addr) == LastUpdate(ops, r[i].proc, r[i].addr) < |ops|
      ensures r[i] == t[if k.Some? && i - 1 >= k.value then i else i - 1]
    {
      var s := t[if k.Some? && i - 1 >= k.value then i else i - 1];
      assert r[i] == s && Recent(ops, s);
      OthersDoNotMatch(t, proc, b.addr, if k.Some? && i - 1 >= k.value then i else i - 1);
      RecentStep(ops, Update(b, proc), s);
    }
  }

  lemma PrependInOrder(ops: seq<Op>, x: Record, t: seq<Record>)
    requires InUpdateOrder(ops, t) && Recent(ops, x)
    requires forall j :: 0 <= j < |t| ==> LastUpdate(ops, t[j].proc, t[j].addr) < LastUpdate(ops, x.proc, x.addr)
    ensures InUpdateOrder(ops, [x] + t)
  {
    hide LastUpdate, Recent;
    var r := [x] + t;
    assert forall i :: 1 <= i < |r| ==> r[i] == t[i - 1];
  }

  lemma {:induction false} FlushKeepsOrder(ops: seq<Op>, t: seq<Record>, proc: nat)
    requires InUpdateOrder(ops, t)
    ensures InUpdateOrder(ops + [Flush(proc)], Flushed(t, proc))
  {
    hide LastUpdate, Recent;
    if t != [] {
      var rest := t[1..];
      assert forall i :: 0 <= i < |rest| ==> rest[i] == t[i + 1];
      FlushKeepsOrder(ops, rest, proc);
      if t[0].proc != proc {
        var f := Flushed(rest, proc);
        RecentStep(ops, Flush(proc), t[0]);
        forall j | 0 <= j < |f|
          ensures LastUpdate(ops + [Flush(proc)], f[j].proc, f[j].addr) < LastUpdate(ops + [Flush(proc)], t[0].proc, t[0].addr)
        {
          var i :| 0 <= i < |rest| && rest[i] == f[j];
          assert t[i + 1] == f[j] && Recent(ops, t[i + 1]);
          RecentStep(ops, Flush(proc), f[j]);
        }
        PrependInOrder(ops + [Flush(proc)], t[0], f);
      }
    }
  }

  // After any run: no key twice, most recent update first, so that what is
  // evicted when the table is full is the least recently updated.
  lemma {:induction false} TableIsInUpdateOrder(ops: seq<Op>, size: nat)
    requires size > 0
    ensures KeysUnique(Table(ops, size)) && InUpdateOrder(ops, Table(ops, size))
    decreases |ops|
  {
    if ops != [] {
      var before, op := ops[..|ops| - 1], ops[|ops| - 1];
      TableIsInUpdateOrder(before, size);
      assert ops == before + [op];
      var t := Table(before, size);
      match op
      case Update(b, proc) =>
        AddKeepsKeys(t, size, b, proc);
        UpdateKeepsOrder(before, t, size, b, proc);
      case Flush(proc) =>
        FlushKeepsKeys(t, proc);
        FlushKeepsOrder(before, t, proc);
    }
  }

  lemma OnlyLastLeaves(t: seq<Record>, size: nat, b: Branch, proc: nat, k: nat)
    requires k < |t| <= size && Find(t, proc, b.addr) == None
    ensures |t| < size || k < size - 1 ==> t[k] in Add(t, size, b, proc)
  {
    if |t| < size || k < size - 1 {
      assert Add(t, size, b, proc)[k + 1] == t[k];
    }
  }

  // The record that leaves a full table.
  lemma EvictsLeastRecent(ops: seq<Op>, size: nat, b: Branch, proc: nat, r: Record)
    requires size > 0 && Find(Table(ops, size), proc, b.addr) == None
    requires r in Table(ops, size) && r !in Add(Table(ops, size), size, b, proc)
    ensures |Table(ops, size)| == size
    ensures forall s :: s in Table(ops, size) && s != r ==>
      LastUpdate(ops, s.proc, s.addr) > LastUpdate(ops, r.proc, r.addr)
  {
    hide LastUpdate, Table, Recent, Find, Add, KeysUnique, Matches;
    var t := Table(ops, size);
    TableIsInUpdateOrder(ops, size);
    var k :| 0 <= k < |t| && t[k] == r;
    OnlyLastLeaves(t, size, b, proc, k);
    forall s | s in t && s != r
      ensures LastUpdate(ops, s.proc, s.addr) > LastUpdate(ops, r.proc, r.addr)
    {
      var i :| 0 <= i < |t| && t[i] == s;
    }
  }

  // ---- the predictor ----

  // The answer of branch_pred_hist_tb_t::check
  datatype Answer = NotABranch | Predicted(take: bool, target: nat)

  function Check(t: seq<Record>, vaddr: nat, proc: nat): Answer {
    var k := Find(t, proc, vaddr);
    if k.None? then NotABranch else Predicted(t[k.value].count >= 0, t[k.value].target)
  }

  // ---- what is predicted, from the history alone ----

  ghost predicate Known(ops: seq<Op>, size: nat, proc: nat, addr: nat)
    requires size > 0
  {
    Find(Table(ops, size), proc, addr).Some?
  }

  lemma {:induction false} FlushedHas(t: seq<Record>, proc: nat, r: Record)
    ensures r in Flushed(t, proc) <==> r in t && r.proc != proc
  {
    if t != [] { FlushedHas(t[1..], proc, r); }
  }

  lemma AddHas(t: seq<Record>, size: nat, b: Branch, proc: nat, r: Record)
    requires |t| <= size && size > 0 && r in Add(t, size, b, proc) && !Matches(r, proc, b.addr)
    ensures r in t
  {
    var a, k := Add(t, size, b, proc), Find(t, proc, b.addr);
    var i :| 0 <= i < |a| && a[i] == r;
    assert i > 0;
    assert r == t[if k.Some? && i - 1 >= k.value then i else i - 1];
  }

  // A record in the table is as its last update left it.
  lemma {:induction false} RecordKept(ops: seq<Op>, size: nat, r: Record)
    requires size > 0 && r in Table(ops, size)
    ensures LastUpdate(ops, r.proc, r.addr) < |ops|
    ensures
      var n := LastUpdate(ops, r.proc, r.addr);
      r == Add(Table(ops[..n], size), size, ops[n].branch, r.proc)[0]
    decreases |ops|
  {
    hide Find;
    var last := |ops| - 1;
    var before, op := ops[..last], ops[last];
    if op.Update? && op.proc == r.proc && op.branch.addr == r.addr {
      TableIsInUpdateOrder(ops, size);
      var i :| 0 <= i < |Table(ops, size)| && Table(ops, size)[i] == r;
      assert Matches(Table(ops, size)[0], r.proc, r.addr);
    } else {
      match op {
        case Update(b, proc) => AddHas(Table(before, size), size, b, proc, r);
        case Flush(proc) => FlushedHas(Table(before, size), proc, r);
      }
      RecordKept(before, size, r);
      assert ops[..LastUpdate(before, r.proc, r.addr)] == before[..LastUpdate(before, r.proc, r.addr)];
    }
  }

  // The counter of a known branch, from its last update and the one before.
  lemma CountAfter(ops: seq<Op>, size: nat, proc: nat, addr: nat) returns (n: nat, count: int, before: Option<int>)
    requires size > 0 && Known(ops, size, proc, addr)
    ensures n == LastUpdate(ops, proc, addr) < |ops| && ops[n].Update? && -1 <= count <= 1
    ensures Check(Table(ops, size), addr, proc) == Predicted(count >= 0, ops[n].branch.target)
    ensures count == Table(ops, size)[Find(Table(ops, size), proc, addr).value].count
    ensures before.Some? <==> Known(ops[..n], size, proc, addr)
    ensures before.Some? ==> before.value == Table(ops[..n], size)[Find(Table(ops[..n], size), proc, addr).value].count
    ensures before.None? ==> count == if ops[n].branch.taken then 0 else -1
    ensures before.Some? ==> count == Counted(before.value, ops[n].branch.taken)
  {
    hide LastUpdate, Table;
    var t := Table(ops, size);
    var r := t[Find(t, proc, addr).value];
    RecordKept(ops, size, r);
    TableIsInUpdateOrder(ops, size);
    n := LastUpdate(ops, proc, addr);
    count := r.count;
    var was := Table(ops[..n], size);
    before := if Find(was, proc, addr).Some? then Some(was[Find(was, proc, addr).value].count) else None;
    assert Recent(ops, r);
  }

  // Last taken: predicted taken, with the target of that update.
  lemma TakenIsPredicted(ops: seq<Op>, size: nat, proc: nat, addr: nat)
    requires size > 0 && Known(ops, size, proc, addr)
    ensures
      var n := LastUpdate(ops, proc, addr);
      n < |ops| && ops[n].Update? && Check(Table(ops, size), addr, proc).Predicted? &&
      Check(Table(ops, size), addr, proc).target == ops[n].branch.target &&
      (ops[n].branch.taken ==> Check(Table(ops, size), addr, proc).take)
  {
    hide LastUpdate, Table, Check;
    var n, count, before := CountAfter(ops, size, proc, addr);
    if before.Some? { var _, _, _ := CountAfter(ops[..n], size, proc, addr); }
  }

  // Not taken twice in a row: predicted not taken; and so is a branch that was
  // not known when it was last not taken.
  lemma NotTakenTwiceIsPredicted(ops: seq<Op>, size: nat, proc: nat, addr: nat)
    requires size > 0 && Known(ops, size, proc, addr)
    ensures
      var n := LastUpdate(ops, proc, addr);
      n < |ops| && ops[n].Update? && Check(Table(ops, size), addr, proc).Predicted? &&
      (!ops[n].branch.taken && !Known(ops[..n], size, proc, addr) ==> !Check(Table(ops, size), addr, proc).take) &&
      var m := LastUpdate(ops[..n], proc, addr);
      (m < n && ops[m].Update? && !ops[m].branch.taken && !ops[n].branch.taken ==> !Check(Table(ops, size), addr, proc).take)
  {
    hide LastUpdate, Table, Check;
    var n, count, before := CountAfter(ops, size, proc, addr);
    if before.Some? {
      var m, _, earlier := CountAfter(ops[..n], size, proc, addr);
      assert ops[..n][m] == ops[m];
      if earlier.Some? { var _, _, _ := CountAfter(ops[..n][..m], size, proc, addr); }
    }
  }

  // Taken twice in a row and then not taken once: still predicted taken, if and
  // only if the branch was known at the last two of these updates.
  lemma OneMissIsForgiven(ops: seq<Op>, size: nat, proc: nat, addr: nat)
    requires size > 0 && Known(ops, size, proc, addr)
    requires LastUpdate(ops, proc, addr) < |ops| && !ops[LastUpdate(ops, proc, addr)].branch.taken
    requires
      var n := LastUpdate(ops, proc, addr);
      LastUpdate(ops[..n], proc, addr) < n && ops[LastUpdate(ops[..n], proc, addr)].branch.taken
    requires
      var m := LastUpdate(ops[..LastUpdate(ops, proc, addr)], proc, addr);
      LastUpdate(ops[..m], proc, addr) < m && ops[LastUpdate(ops[..m], proc, addr)].branch.taken
    ensures
      var n := LastUpdate(ops, proc, addr);
      var m := LastUpdate(ops[..n], proc, addr);
      Check(Table(ops, size), addr, proc).Predicted? &&
      (Check(Table(ops, size), addr, proc).take <==> Known(ops[..n], size, proc, addr) && Known(ops[..m], size, proc, addr))
  {
    hide LastUpdate, Table, Check;
    var n, count, before := CountAfter(ops, size, proc, addr);
    if before.Some? {
      var m, _, earlier := CountAfter(ops[..n], size, proc, addr);
      assert ops[..n][m] == ops[m] && ops[..n][..m] == ops[..m];
      if earlier.Some? {
        var l, _, first := CountAfter(ops[..m], size, proc, addr);
        assert ops[..m][l] == ops[l];
        if first.Some? { var _, _, _ := CountAfter(ops[..m][..l], size, proc, addr); }
      }
    }
  }

  // The records the ids of a list stand for.
  function Deref(records: seq<Record>, ids: seq<nat>): (t: seq<Record>)
    requires forall i :: 0 <= i < |ids| ==> ids[i] < |records|
    ensures |t| == |ids| && forall i :: 0 <= i < |ids| ==> t[i] == records[ids[i]]
  {
    seq(|ids|, i requires 0 <= i < |ids| => records[ids[i]])
  }

  // The records are shared out between the table and the supply.
  ghost predicate SharedOut(ids: seq<nat>, supply: seq<nat>, size: nat) {
    && |ids| + |supply| == size
    && (forall i :: 0 <= i < |ids| ==> ids[i] < size)
    && (forall i :: 0 <= i < |supply| ==> supply[i] < size)
    && (forall i, j :: 0 <= i < j < |ids| ==> ids[i] != ids[j])
    && (forall i, j :: 0 <= i < j < |supply| ==> supply[i] != supply[j])
    && (forall i, j :: 0 <= i < |ids| && 0 <= j < |supply| ==> ids[i] != supply[j])
  }

  // A hash entry leads to an occupied slot, and a single element outside slot 0
  // is in no hash entry: moving it to the front would change its slot.
  ghost predicate HashOk(hash: seq<Option<nat>>, used: seq<nat>) {
    && (forall i :: 0 <= i < |hash| && hash[i].Some? ==> hash[i].value in used)
    && (|used| == 1 && used[0] != 0 ==> forall i :: 0 <= i < |hash| ==> hash[i] == None)
  }

  class Predictor {
    const size: nat
    const list: List<nat>
    const supplier: List<nat>
    const records: array<Record>
    const hash: array<Option<nat>>

    ghost function Repr(): set<object> {
      {this, list, list.slots, supplier, supplier.slots, records, hash}
    }

    ghost predicate Consistent()
      reads Repr()
    {
      && list != supplier && list.slots != supplier.slots && hash.Length > 0
      && list.Valid() && supplier.Valid()
      && records.Length == size && list.slots.Length == size && supplier.slots.Length == size
      && SharedOut(list.Contents(), supplier.Contents(), size)
      && HashOk(hash[..], list.chains.used)
    }

    ghost predicate Valid()
      reads Repr()
    {
      Consistent() && KeysUnique(View())
    }

    // The table, most recently updated first.
    ghost function View(): (t: seq<Record>)
      requires Consistent()
      reads Repr()
      ensures |t| == |list.chains.used|
    {
      Deref(records[..], list.Contents())
    }

    constructor (size: nat)
      requires 0 < size < END
      ensures Valid() && this.size == size && View() == []
    {
      var pt := 1;
      while pt < size
        invariant pt > 0
      {
        pt := 2 * pt;
      }
      this.size := size;
      hash := new Option<nat>[2 * pt](_ => None);
      list := new List(size);
      supplier := new List(size);
      records := new Record[size](_ => Record(0, 0, 0, 0));
      new;
      Stock();
    }

    // All records start in the supply.
    method Stock()
      requires 0 < size < END && list != supplier && list.slots != supplier.slots && hash.Length > 0
      requires list.Valid() && supplier.Valid() && list.chains.used == [] && supplier.chains.used == []
      requires records.Length == size && list.slots.Length == size && supplier.slots.Length == size
      requires forall h :: 0 <= h < hash.Length ==> hash[h] == None
      modifies supplier, supplier.slots
      ensures Valid() && View() == []
    {
      hide UsedLinks, FreeLinks, Values, ChainsOk, AddedEnd, Identity, SharedOut, HashOk, EndsOk;
      var i := 0;
      assert supplier.Contents() == Identity(0);
      while i < size
        invariant i <= size && supplier.Valid() && supplier.Contents() == Identity(i)
      {
        Full(supplier.chains, size);
        IdentityNext(i);
        var _ := supplier.AddEnd(i);
        i := i + 1;
      }
      assert list.Valid() && list.Contents() == [];
      AllSupplied(list.Contents(), supplier.Contents(), size);
      EmptyHashOk(hash[..], list.chains.used);
      assert View() == [];
    }

    // search: the hash entry if it happens to be right, otherwise the list.
    // Whether or not the entry is stale, the outcome is that of the list.
    method Search(addr: nat, proc: nat) returns (pos: Option<nat>)
      requires Valid()
      ensures pos == SlotOf(list.chains.used, Find(View(), proc, addr))
    {
      hide Consistent, Find, KeysUnique, Deref, Position;
      FirstOf();
      var p := hash[addr % hash.Length];
      if p.Some? {
        Hashed(addr % hash.Length);
        ghost var k := Position(list.chains.used, p.value);
        Seen(k);
        var r := records[list.slots[p.value].data.value];
        if r.proc == proc && r.addr == addr {
          MatchIsFound(View(), proc, addr, k);
          return p;
        }
      }
      pos := Scan(addr, proc);
    }

    // The loop of search.
    method Scan(addr: nat, proc: nat) returns (pos: Option<nat>)
      requires Valid()
      ensures pos == SlotOf(list.chains.used, Find(View(), proc, addr))
    {
      hide Consistent, Find, KeysUnique, Deref, SlotOf, Matches, Laid;
      ghost var t, used, s, recs := View(), list.chains.used, list.slots[..], records[..];
      FirstOf();
      LaidOut();
      var i := if list.n != 0 then Some(list.begin) else None;
      ghost var k := 0;
      while i.Some?
        invariant list.slots[..] == s && records[..] == recs && k <= |used|
        invariant i == if k < |used| then Some(used[k]) else None
        invariant forall j :: 0 <= j < k ==> !Matches(t[j], proc, addr)
        decreases |used| - k
      {
        LaidAt(s, recs, used, t, k);
        var r := records[list.slots[i.value].data.value];
        NoMatch(t[k], r, proc, addr);
        if r.proc == proc && r.addr == addr {
          MatchIsFound(t, proc, addr, k);
          Slots(used, k);
          return i;
        }
        var next := list.slots[i.value].next;
        i := if next < list.slots.Length then Some(next) else None;
        k := k + 1;
      }
      NoneIsFound(t, proc, addr);
      Slots(used, k);
      return None;
    }

    lemma LaidOut()
      requires Consistent()
      ensures Laid(list.slots[..], records[..], list.chains.used, View())
    {
      hide Consistent, Deref;
      FirstOf();
      forall k: nat | k < |list.chains.used|
        ensures LinkAt(list.slots[..], records[..], list.chains.used, View(), k)
      {
        Seen(k);
      }
    }

    lemma Hashed(i: nat)
      requires Consistent() && i < hash.Length && hash[i].Some?
      ensures hash[i].value in list.chains.used
    {
      hide SharedOut, Deref;
      HashedSlot(hash[..], list.chains.used, i);
    }

    // Element k of the table: its slot, its record and the next slot.
    lemma Seen(k: nat)
      requires Consistent() && k < |list.chains.used|
      ensures list.Valid() && |View()| == |list.chains.used|
      ensures
        var slot := list.chains.used[k];
        && slot < list.slots.Length && list.slots[slot].data.Some? && list.slots[slot].data.value < records.Length
        && records[list.slots[slot].data.value] == View()[k]
        && (if k + 1 < |list.chains.used| then list.slots[slot].next == list.chains.used[k + 1] < list.slots.Length
            else list.slots[slot].next >= list.slots.Length)
    {
      hide UsedLinks, FreeLinks, Values, HashOk, KeysUnique;
      list.At(k);
    }

    // check
    method Predict(vaddr: nat, proc: nat) returns (a: Answer)
      requires Valid()
      ensures a == Check(View(), vaddr, proc)
    {
      hide Consistent, KeysUnique, Deref, Laid, Find;
      ghost var t, used, s, recs := View(), list.chains.used, list.slots[..], records[..];
      LaidOut();
      LaidSize(s, recs, used, t);
      var pos := Search(vaddr, proc);
      assert list.slots[..] == s && records[..] == recs;
      if pos.None? { return NotABranch; }
      LaidAt(s, recs, used, t, Find(t, proc, vaddr).value);
      var r := records[list.slots[pos.value].data.value];
      return Predicted(r.count >= 0, r.target);
    }

    // ---- add_entry ----

    method AddEntry(b: Branch, proc: nat)
      requires Valid()
      modifies Repr()
      ensures Valid() && View() == Add(old(View()), size, b, proc)
    {
      hide Consistent, Deref, KeysUnique;
      Sizes();
      AddKeepsKeys(View(), size, b, proc);
      var pos := Search(b.addr, proc);
      if pos.Some? {
        Refresh(pos.value, Find(View(), proc, b.addr).value, b, proc);
      } else if supplier.n > 0 {
        Supply(b, proc);
      } else {
        Substitute(b, proc);
      }
    }

    lemma Sizes()
      requires Consistent()
      ensures 0 < size && |View()| <= size && |View()| + supplier.n == size
    {
    }

    ghost predicate Apart()
      reads this
    {
      list != supplier && list.slots != supplier.slots
    }

    // The element in the given slot moves to the front.
    method Front(pos: nat, ghost k: nat) returns (id: nat, el: nat)
      requires Apart() && list.Valid() && supplier.Valid() && k < |list.chains.used| && list.chains.used[k] == pos
      modifies list, list.slots
      ensures list.Valid() && supplier.Valid() && supplier.Contents() == old(supplier.Contents())
      ensures
        var c, ids := old(list.chains), old(list.Contents());
        && list.chains == AddedBeginning(Deleted(c, k, list.slots.Length)) && el == list.chains.used[0]
        && list.Contents() == [ids[k]] + (ids[..k] + ids[k + 1..]) && id == ids[k]
    {
      hide ChainsOk, UsedLinks, FreeLinks, Values, AddedBeginning, Deleted, Position;
      list.At(k);
      el := list.MoveToInit(pos);
      assert supplier.slots[..] == old(supplier.slots[..]);
      list.At(0);
      id := list.slots[el].data.value;
    }

    // The first element of the supply moves to the front of the list.
    method FromSupply() returns (id: nat, el: nat)
      requires Apart() && list.Valid() && supplier.Valid() && supplier.n > 0 && list.chains.free != []
      modifies list, list.slots, supplier, supplier.slots
      ensures list.Valid() && supplier.Valid() && supplier.Contents() == old(supplier.Contents())[1..]
      ensures list.chains == AddedBeginning(old(list.chains)) && el == list.chains.used[0]
      ensures list.Contents() == [id] + old(list.Contents()) && id == old(supplier.Contents())[0]
    {
      hide ChainsOk, UsedLinks, FreeLinks, Values, Deleted, Position;
      supplier.At(0);
      id := supplier.slots[supplier.begin].data.value;
      supplier.DeleteFirst();
      assert list.slots[..] == old(list.slots[..]);
      assert list.Contents() == old(list.Contents());
      ghost var left := supplier.slots[..];
      var r := list.AddBeginning(id);
      assert supplier.slots[..] == left;
      el := r.value;
    }

    // The last element is replaced.
    method Recycled() returns (id: nat, el: nat)
      requires Apart() && list.Valid() && supplier.Valid() && list.n > 0
      modifies list, list.slots
      ensures list.Valid() && supplier.Valid() && supplier.Contents() == old(supplier.Contents())
      ensures
        var c, ids, k := old(list.chains), old(list.Contents()), |old(list.Contents())| - 1;
        && list.chains == AddedBeginning(Deleted(c, k, list.slots.Length)) && el == list.chains.used[0]
        && list.Contents() == [ids[k]] + ids[..k] && id == ids[k]
    {
      hide ChainsOk, UsedLinks, FreeLinks, Values, Deleted, Position;
      ghost var c, k := list.chains, |list.chains.used| - 1;
      list.At(k);
      id := list.slots[list.end].data.value;
      DeletedHasRoom(c, k, list.slots.Length);
      list.DeleteLast();
      var r := list.AddBeginning(id);
      assert supplier.slots[..] == old(supplier.slots[..]);
      el := r.value;
    }

    // The last lines of add_entry.
    method Store(id: nat, r: Record, addr: nat, el: nat)
      requires list.Valid() && supplier.Valid() && id < records.Length && hash.Length > 0
      modifies records, hash
      ensures list.Valid() && supplier.Valid()
      ensures list.Contents() == old(list.Contents()) && supplier.Contents() == old(supplier.Contents())
      ensures records[..] == old(records[..])[id := r]
      ensures hash[..] == old(hash[..])[addr % hash.Length := Some(el)]
    {
      records[id] := r;
      hash[addr % hash.Length] := Some(el);
    }

    // The branch is in the table.
    method Refresh(pos: nat, ghost k: nat, b: Branch, proc: nat)
      requires Consistent() && k < |View()| && list.chains.used[k] == pos
      modifies Repr()
      ensures Consistent()
      ensures
        var t := old(View());
        View() == [Updated(b, proc, Counted(t[k].count, b.taken))] + (t[..k] + t[k + 1..])
    {
      hide ChainsOk, UsedLinks, FreeLinks, Values, HashOk, SharedOut, Deref, AddedBeginning, Deleted;
      ghost var ids, supply, c, h, recs := list.Contents(), supplier.Contents(), list.chains, hash[..], records[..];
      IdsInRange(ids, supply, size);
      RecordOf(ids, recs, k);
      var id, el := Front(pos, k);
      var r := Updated(b, proc, Counted(records[id].count, b.taken));
      Store(id, r, b.addr, el);
      MovedToFront(ids, supply, c, h, recs, k, size, b.addr % hash.Length, r);
    }

    // A new branch gets a record from the supply.
    method Supply(b: Branch, proc: nat)
      requires Consistent() && supplier.n > 0
      modifies Repr()
      ensures Consistent()
      ensures View() == [Updated(b, proc, if b.taken then 0 else -1)] + old(View())
    {
      hide ChainsOk, UsedLinks, FreeLinks, Values, HashOk, SharedOut, Deref, AddedBeginning, Deleted;
      ghost var ids, supply, c, h, recs := list.Contents(), supplier.Contents(), list.chains, hash[..], records[..];
      IdsInRange(ids, supply, size);
      Full(c, size);
      var id, el := FromSupply();
      var r := Updated(b, proc, if b.taken then 0 else -1);
      Store(id, r, b.addr, el);
      AddedFromSupply(ids, supply, c, h, recs, size, b.addr % hash.Length, r);
    }

    // A new branch takes the place of the least recent one.
    method Substitute(b: Branch, proc: nat)
      requires Consistent() && supplier.n == 0
      modifies Repr()
      ensures Consistent()
      ensures View() == [Updated(b, proc, if b.taken then 0 else -1)] + old(View())[..size - 1]
    {
      hide ChainsOk, UsedLinks, FreeLinks, Values, HashOk, SharedOut, Deref, AddedBeginning, Deleted;
      ghost var ids, supply, c, h, recs := list.Contents(), supplier.Contents(), list.chains, hash[..], records[..];
      IdsInRange(ids, supply, size);
      ghost var k := |ids| - 1;
      Full(c, size);
      var id, el := Recycled();
      var r := Updated(b, proc, if b.taken then 0 else -1);
      Store(id, r, b.addr, el);
      assert ids[..k] + ids[k + 1..] == ids[..k];
      MovedToFront(ids, supply, c, h, recs, k, size, b.addr % hash.Length, r);
    }

    // ---- flush ----

    ghost predicate HashEmpty()
      reads this, hash
    {
      forall h :: 0 <= h < hash.Length ==> hash[h] == None
    }

    method ClearHash()
      requires Consistent()
      modifies hash
      ensures Consistent() && HashEmpty() && View() == old(View())
    {
      hide SharedOut, Deref, ChainsOk, UsedLinks, FreeLinks, Values, HashOk, EndsOk;
      var i := 0;
      while i < hash.Length
        invariant i <= hash.Length && forall h :: 0 <= h < i ==> hash[h] == None
      {
        hash[i] := None;
        i := i + 1;
      }
      EmptyHashOk(hash[..], list.chains.used);
      assert list.slots[..] == old(list.slots[..]) && list.Contents() == old(list.Contents());
      assert supplier.slots[..] == old(supplier.slots[..]) && supplier.Contents() == old(supplier.Contents());
      assert records[..] == old(records[..]);
    }

    // list_supplier.add_end(data); list.del(el)
    method Return(pos: nat, ghost k: nat)
      requires Consistent() && HashEmpty() && k < |list.chains.used| && list.chains.used[k] == pos
      modifies list, list.slots, supplier, supplier.slots
      ensures Consistent() && HashEmpty()
      ensures list.chains.used == old(list.chains.used)[..k] + old(list.chains.used)[k + 1..]
      ensures View() == old(View())[..k] + old(View())[k + 1..]
      ensures list.slots[pos].next == old(list.slots[pos].next)
    {
      hide ChainsOk, UsedLinks, FreeLinks, Values, SharedOut, Deref, Deleted, AddedEnd, Position, HashOk;
      ghost var ids, supply, c := list.Contents(), supplier.Contents(), list.chains;
      IdsInRange(ids, supply, size);
      var id := Give(pos, k);
      ReturnedIds(ids, supply, k, size, records[..]);
      EmptyHashOk(hash[..], list.chains.used);
    }

    method Give(pos: nat, ghost k: nat) returns (id: nat)
      requires Apart() && list.Valid() && supplier.Valid() && k < |list.chains.used| && list.chains.used[k] == pos
      requires |supplier.chains.used| < supplier.slots.Length
      modifies list, list.slots, supplier, supplier.slots
      ensures list.Valid() && supplier.Valid()
      ensures list.chains.used == old(list.chains.used)[..k] + old(list.chains.used)[k + 1..]
      ensures list.Contents() == old(list.Contents())[..k] + old(list.Contents())[k + 1..]
      ensures supplier.Contents() == old(supplier.Contents()) + [id] && id == old(list.Contents())[k]
      ensures pos < list.slots.Length && list.slots[pos].next == old(list.slots[pos].next)
    {
      hide ChainsOk, UsedLinks, FreeLinks, Values, Position, Deleted, AddedEnd;
      Full(supplier.chains, supplier.slots.Length);
      list.At(k);
      id := list.slots[pos].data.value;
      var _ := supplier.AddEnd(id);
      assert list.slots[..] == old(list.slots[..]);
      assert list.Contents() == old(list.Contents());
      ghost var given := supplier.slots[..];
      UsedWithout(list.chains, k, list.slots.Length);
      list.Delete(pos);
      assert supplier.slots[..] == given;
    }

    // flush: the elements of the processor go back to the supply while the list
    // is walked through the links of the slots, deleted ones included.
    method Flush(proc: nat)
      requires Valid()
      modifies Repr()
      ensures Valid() && View() == Flushed(old(View()), proc)
    {
      hide Consistent, KeysUnique, Flushed, Deref, Apart, HashEmpty;
      FlushKeepsKeys(View(), proc);
      ghost var t, walk := View(), list.chains.used;
      ClearHash();
      ghost var kept: nat, i: nat := 0, 0;
      FirstOf();
      var el := if list.n != 0 then Some(list.begin) else None;
      while el.Some?
        invariant Consistent() && HashEmpty() && WalkedTo(t, walk, kept, i, proc)
        invariant el == if i < |walk| then Some(walk[i]) else None
        decreases |walk| - i
      {
        el, kept := Visit(el.value, t, walk, kept, i, proc);
        i := i + 1;
      }
      assert t[..i] == t && View() == View()[..kept];
    }

    // Of the walk over the old list, i elements are done and `kept` of them
    // are still there.
    ghost predicate WalkedTo(t: seq<Record>, walk: seq<nat>, kept: nat, i: nat, proc: nat)
      requires Consistent()
      reads Repr()
    {
      && i <= |walk| == |t| && Walked(list.chains.used, walk, kept, i) && Walked(View(), t, kept, i)
      && View()[..kept] == Flushed(t[..i], proc)
    }

    // The body of the loop of flush.
    method Visit(pos: nat, ghost t: seq<Record>, ghost walk: seq<nat>, ghost kept: nat, ghost i: nat, proc: nat)
        returns (el: Option<nat>, ghost more: nat)
      requires Consistent() && HashEmpty() && WalkedTo(t, walk, kept, i, proc) && i < |walk| && pos == walk[i]
      modifies list, list.slots, supplier, supplier.slots
      ensures Consistent() && HashEmpty() && WalkedTo(t, walk, more, i + 1, proc)
      ensures el == if i + 1 < |walk| then Some(walk[i + 1]) else None
    {
      hide Consistent, KeysUnique, Flushed, Deref, Apart, HashEmpty, Walked;
      FirstOf();
      WalkStep(list.chains.used, walk, kept, i);
      WalkStep(View(), t, kept, i);
      FlushedSnoc(t, i, proc);
      Seen(kept);
      var r := records[list.slots[pos].data.value];
      if r.proc == proc {
        Return(pos, kept);
        more := kept;
      } else {
        more := kept + 1;
      }
      var next := list.slots[pos].next;
      el := if next < list.slots.Length then Some(next) else None;
    }

    lemma FirstOf()
      requires Consistent()
      ensures list.n == |list.chains.used| && (list.n > 0 ==> list.begin == list.chains.used[0])
      ensures |View()| == |list.chains.used| && hash.Length > 0
    {
    }
  }

  // What is left of the walk follows what was kept.
  ghost predicate Walked<T>(now: seq<T>, all: seq<T>, kept: nat, i: nat) {
    kept <= |now| && i <= |all| && now[kept..] == all[i..]
  }

  lemma WalkStep<T>(now: seq<T>, all: seq<T>, kept: nat, i: nat)
    requires Walked(now, all, kept, i) && i < |all|
    ensures kept < |now| && now[kept] == all[i] && Walked(now, all, kept + 1, i + 1)
    ensures kept + 1 < |now| <==> i + 1 < |all|
    ensures kept + 1 < |now| ==> now[kept + 1] == all[i + 1]
    ensures Walked(now[..kept] + now[kept + 1..], all, kept, i + 1)
    ensures (now[..kept] + now[kept + 1..])[..kept] == now[..kept] && now[..kept + 1] == now[..kept] + [all[i]]
  {
    assert now[kept..][0] == all[i..][0];
    assert now[kept..][1..] == now[kept + 1..] && all[i..][1..] == all[i + 1..];
    if kept + 1 < |now| { assert now[kept + 1..][0] == all[i + 1..][0]; }
    assert (now[..kept] + now[kept + 1..])[kept..] == now[kept + 1..];
  }

  lemma {:induction false} FlushedConcat(a: seq<Record>, b: seq<Record>, proc: nat)
    ensures Flushed(a + b, proc) == Flushed(a, proc) + Flushed(b, proc)
    decreases |a|
  {
    if a == [] {
      assert a + b == b;
    } else {
      assert (a + b)[1..] == a[1..] + b;
      FlushedConcat(a[1..], b, proc);
    }
  }

  lemma FlushedSnoc(t: seq<Record>, i: nat, proc: nat)
    requires i < |t|
    ensures Flushed(t[..i + 1], proc) == if t[i].proc == proc then Flushed(t[..i], proc) else Flushed(t[..i], proc) + [t[i]]
  {
    assert t[..i + 1] == t[..i] + [t[i]];
    FlushedConcat(t[..i], [t[i]], proc);
  }

  // The slot of the element with the given index.
  ghost function SlotOf(used: seq<nat>, k: Option<nat>): Option<nat> {
    if k.Some? && k.value < |used| then Some(used[k.value]) else None
  }

  // Slot, record and next slot of element k.
  ghost predicate LinkAt(s: seq<Slot<nat>>, recs: seq<Record>, used: seq<nat>, t: seq<Record>, k: nat)
    requires k < |used| == |t|
  {
    var slot := used[k];
    && slot < |s| && s[slot].data.Some? && s[slot].data.value < |recs| && recs[s[slot].data.value] == t[k]
    && (if k + 1 < |used| then s[slot].next == used[k + 1] < |s| else s[slot].next >= |s|)
  }

  ghost predicate Laid(s: seq<Slot<nat>>, recs: seq<Record>, used: seq<nat>, t: seq<Record>) {
    |used| == |t| && forall k: nat :: k < |used| ==> LinkAt(s, recs, used, t, k)
  }

  lemma LaidSize(s: seq<Slot<nat>>, recs: seq<Record>, used: seq<nat>, t: seq<Record>)
    requires Laid(s, recs, used, t)
    ensures |t| == |used|
  {
  }

  lemma LaidAt(s: seq<Slot<nat>>, recs: seq<Record>, used: seq<nat>, t: seq<Record>, k: nat)
    requires Laid(s, recs, used, t) && k < |used|
    ensures |t| == |used| && LinkAt(s, recs, used, t, k)
  {
  }

  lemma NoMatch(s: Record, r: Record, proc: nat, addr: nat)
    requires s == r
    ensures Matches(s, proc, addr) <==> r.proc == proc && r.addr == addr
  {
  }

  lemma Slots(used: seq<nat>, k: nat)
    ensures SlotOf(used, None) == None && (k < |used| ==> SlotOf(used, Some(k)) == Some(used[k]))
  {
  }

  lemma EmptyHashOk(hash: seq<Option<nat>>, used: seq<nat>)
    requires forall h :: 0 <= h < |hash| ==> hash[h] == None
    ensures HashOk(hash, used)
  {
  }

  lemma UsedWithout(c: Chains, k: nat, capacity: nat)
    requires k < |c.used|
    ensures Deleted(c, k, capacity).used == c.used[..k] + c.used[k + 1..]
  {
  }

  lemma ReturnedIds(ids: seq<nat>, supply: seq<nat>, k: nat, size: nat, recs: seq<Record>)
    requires SharedOut(ids, supply, size) && k < |ids| && |recs| == size
    requires forall i :: 0 <= i < |ids| ==> ids[i] < |recs|
    ensures
      var rest := ids[..k] + ids[k + 1..];
      && SharedOut(rest, supply + [ids[k]], size)
      && (forall i :: 0 <= i < |rest| ==> rest[i] < |recs|)
      && Deref(recs, rest) == Deref(recs, ids)[..k] + Deref(recs, ids)[k + 1..]
  {
    var rest, more := ids[..k] + ids[k + 1..], supply + [ids[k]];
    assert forall i :: 0 <= i < |rest| ==> rest[i] == ids[if i < k then i else i + 1];
    assert forall i :: 0 <= i < |more| ==> more[i] == if i < |supply| then supply[i] else ids[k];
  }

  lemma RecordOf(ids: seq<nat>, recs: seq<Record>, k: nat)
    requires k < |ids| && forall i :: 0 <= i < |ids| ==> ids[i] < |recs|
    ensures Deref(recs, ids)[k] == recs[ids[k]]
  {
  }

  lemma IdsInRange(ids: seq<nat>, supply: seq<nat>, size: nat)
    requires SharedOut(ids, supply, size)
    ensures |ids| + |supply| == size
    ensures forall i :: 0 <= i < |ids| ==> ids[i] < size
    ensures forall i :: 0 <= i < |supply| ==> supply[i] < size
  {
  }

  lemma DeletedHasRoom(c: Chains, k: nat, capacity: nat)
    requires ChainsOk(c, capacity) && k < |c.used|
    ensures Deleted(c, k, capacity).free != []
  {
  }

  // An element of the table moves to the front and gets a new record.
  lemma MovedToFront(ids: seq<nat>, supply: seq<nat>, c: Chains, hash: seq<Option<nat>>, recs: seq<Record>, k: nat,
                     size: nat, entry: nat, r: Record)
    requires ChainsOk(c, size) && SharedOut(ids, supply, size) && HashOk(hash, c.used)
    requires k < |ids| == |c.used| && entry < |hash| && |recs| == size
    requires forall i :: 0 <= i < |ids| ==> ids[i] < |recs|
    ensures
      var moved := [ids[k]] + (ids[..k] + ids[k + 1..]);
      var used := AddedBeginning(Deleted(c, k, size)).used;
      && SharedOut(moved, supply, size) && used != [] && HashOk(hash[entry := Some(used[0])], used)
      && (forall i :: 0 <= i < |moved| ==> moved[i] < |recs|)
      && Deref(recs[ids[k] := r], moved) == [r] + (Deref(recs, ids)[..k] + Deref(recs, ids)[k + 1..])
  {
    var moved := [ids[k]] + (ids[..k] + ids[k + 1..]);
    assert forall i :: 1 <= i < |moved| ==> moved[i] == ids[if i - 1 < k then i - 1 else i];
    MovedHash(c, hash, k, size, entry);
    MovedShared(ids, supply, k, size);
    MovedRecords(ids, recs, k, r);
  }

  lemma MovedShared(ids: seq<nat>, supply: seq<nat>, k: nat, size: nat)
    requires SharedOut(ids, supply, size) && k < |ids|
    ensures SharedOut([ids[k]] + (ids[..k] + ids[k + 1..]), supply, size)
  {
    var moved := [ids[k]] + (ids[..k] + ids[k + 1..]);
    assert forall i :: 0 <= i < |moved| ==> moved[i] == ids[if i == 0 then k else if i - 1 < k then i - 1 else i];
  }

  lemma MovedRecords(ids: seq<nat>, recs: seq<Record>, k: nat, r: Record)
    requires k < |ids| && (forall i :: 0 <= i < |ids| ==> ids[i] < |recs|)
    requires forall i, j :: 0 <= i < j < |ids| ==> ids[i] != ids[j]
    ensures
      var moved := [ids[k]] + (ids[..k] + ids[k + 1..]);
      && (forall i :: 0 <= i < |moved| ==> moved[i] < |recs|)
      && Deref(recs[ids[k] := r], moved) == [r] + (Deref(recs, ids)[..k] + Deref(recs, ids)[k + 1..])
  {
    var moved := [ids[k]] + (ids[..k] + ids[k + 1..]);
    assert forall i :: 1 <= i < |moved| ==> moved[i] == ids[if i - 1 < k then i - 1 else i];
  }

  lemma MovedHash(c: Chains, hash: seq<Option<nat>>, k: nat, size: nat, entry: nat)
    requires ChainsOk(c, size) && HashOk(hash, c.used) && k < |c.used| && entry < |hash|
    ensures
      var used := AddedBeginning(Deleted(c, k, size)).used;
      used != [] && HashOk(hash[entry := Some(used[0])], used)
  {
    var used := AddedBeginning(Deleted(c, k, size)).used;
    MoveToInitSlot(c, k, size);
    if |c.used| > 1 {
      assert forall i :: 1 <= i < |used| ==> used[i] == c.used[if i - 1 < k then i - 1 else i];
      forall i | 0 <= i < |hash| && hash[i].Some?
        ensures hash[i].value in used
      {
        var j := Position(c.used, hash[i].value);
        assert c.used[j] == used[if j == k then 0 else if j < k then j + 1 else j];
      }
    }
  }

  lemma AddedFromSupply(ids: seq<nat>, supply: seq<nat>, c: Chains, hash: seq<Option<nat>>, recs: seq<Record>,
                        size: nat, entry: nat, r: Record)
    requires ChainsOk(c, size) && SharedOut(ids, supply, size) && HashOk(hash, c.used) && supply != [] && c.free != []
    requires |ids| == |c.used| && entry < |hash| && |recs| == size
    requires forall i :: 0 <= i < |ids| ==> ids[i] < |recs|
    ensures
      var more, used := [supply[0]] + ids, AddedBeginning(c).used;
      && SharedOut(more, supply[1..], size) && used != [] && HashOk(hash[entry := Some(used[0])], used)
      && (forall i :: 0 <= i < |more| ==> more[i] < |recs|)
      && Deref(recs[supply[0] := r], more) == [r] + Deref(recs, ids)
  {
    var more, used := [supply[0]] + ids, AddedBeginning(c).used;
    assert forall i :: 1 <= i < |more| ==> more[i] == ids[i - 1];
    assert forall i :: 0 <= i < |supply[1..]| ==> supply[1..][i] == supply[i + 1];
    assert forall i :: 1 <= i < |used| ==> used[i] == c.used[i - 1];
  }

  lemma HashedSlot(hash: seq<Option<nat>>, used: seq<nat>, i: nat)
    requires HashOk(hash, used) && i < |hash| && hash[i].Some?
    ensures hash[i].value in used
  {
  }

  lemma Full(c: Chains, capacity: nat)
    requires ChainsOk(c, capacity)
    ensures (c.free == [] <==> |c.used| == capacity) && capacity > 0
  {
  }

  lemma IdentityNext(i: nat)
    ensures Identity(i) + [i] == Identity(i + 1)
  {
  }

  lemma AllSupplied(ids: seq<nat>, supply: seq<nat>, size: nat)
    requires ids == [] && supply == Identity(size)
    ensures SharedOut(ids, supply, size)
  {
  }

  lemma NoneIsFound(t: seq<Record>, proc: nat, addr: nat)
    requires forall j :: 0 <= j < |t| ==> !Matches(t[j], proc, addr)
    ensures Find(t, proc, addr) == None
  {
  }
}
