// src/data/double_linked_static.h: a doubly linked list inside an array of
// slots, with the chain of free slots threaded through the same array.
module StaticList {
  import opened Common

  // DATA_DBLINKED_STATIC_LIST_END
  const END: nat := 0xFFFF_FFFF

  datatype Slot<T> = Slot(data: Option<T>, prev: nat, next: nat, nextEmpty: nat)

  // ---- what the list means: the occupied slots in list order, and the free
  // slots in the order they will be handed out ----

  datatype Chains = Chains(used: seq<nat>, free: seq<nat>)

  function Identity(n: nat): (r: seq<nat>)
    ensures |r| == n && forall i :: 0 <= i < n ==> r[i] == i
  {
    seq(n, i requires 0 <= i < n => i)
  }

  ghost predicate ChainsOk(c: Chains, capacity: nat) {
    && 0 < capacity < END
    && (forall i :: 0 <= i < |c.used| ==> c.used[i] < capacity)
    && (forall i :: 0 <= i < |c.free| ==> c.free[i] < capacity)
    && (forall i, j :: 0 <= i < j < |c.used| ==> c.used[i] != c.used[j])
    && (forall i, j :: 0 <= i < j < |c.free| ==> c.free[i] != c.free[j])
    && (forall i, j :: 0 <= i < |c.used| && 0 <= j < |c.free| ==> c.used[i] != c.free[j])
    && |c.used| + |c.free| == capacity
    && (c.used == [] ==> c.free == Identity(capacity))
  }

  function AddedEnd(c: Chains): Chains
    requires c.free != []
  {
    Chains(c.used + [c.free[0]], c.free[1..])
  }

  function AddedBeginning(c: Chains): Chains
    requires c.free != []
  {
    Chains([c.free[0]] + c.used, c.free[1..])
  }

  // The last deletion threads the free chain anew.
  function Deleted(c: Chains, k: nat, capacity: nat): Chains
    requires k < |c.used|
  {
    if |c.used| == 1 then Chains([], Identity(capacity))
    else Chains(c.used[..k] + c.used[k + 1..], [c.used[k]] + c.free)
  }

  lemma AddedEndOk(c: Chains, capacity: nat)
    requires ChainsOk(c, capacity) && c.free != []
    ensures ChainsOk(AddedEnd(c), capacity)
  {
    var d := AddedEnd(c);
    assert forall i :: 0 <= i < |d.free| ==> d.free[i] == c.free[i + 1];
    assert forall i :: 0 <= i < |d.used| ==> d.used[i] == if i < |c.used| then c.used[i] else c.free[0];
  }

  lemma AddedBeginningOk(c: Chains, capacity: nat)
    requires ChainsOk(c, capacity) && c.free != []
    ensures ChainsOk(AddedBeginning(c), capacity)
  {
    var d := AddedBeginning(c);
    assert forall i :: 0 <= i < |d.free| ==> d.free[i] == c.free[i + 1];
    assert forall i :: 0 <= i < |d.used| ==> d.used[i] == if i > 0 then c.used[i - 1] else c.free[0];
  }

  lemma DeletedOk(c: Chains, k: nat, capacity: nat)
    requires ChainsOk(c, capacity) && k < |c.used|
    ensures ChainsOk(Deleted(c, k, capacity), capacity)
  {
    if |c.used| > 1 {
      var d := Deleted(c, k, capacity);
      assert forall i :: 0 <= i < |d.used| ==> d.used[i] == c.used[if i < k then i else i + 1];
      assert forall i :: 0 <= i < |d.free| ==> d.free[i] == if i > 0 then c.free[i - 1] else c.used[k];
    }
  }

  // The partition is kept by the three changes; adding is possible exactly when
  // the list is not full.
  lemma ChangesKeepChains(c: Chains, k: nat, capacity: nat)
    requires ChainsOk(c, capacity)
    ensures c.free == [] <==> |c.used| == capacity
    ensures c.free != [] ==> ChainsOk(AddedEnd(c), capacity) && ChainsOk(AddedBeginning(c), capacity)
    ensures k < |c.used| ==> ChainsOk(Deleted(c, k, capacity), capacity)
  {
    hide AddedEnd, AddedBeginning, Deleted;
    if c.free != [] {
      AddedEndOk(c, capacity);
      AddedBeginningOk(c, capacity);
    }
    if k < |c.used| {
      DeletedOk(c, k, capacity);
    }
  }

  // Every slot is in one of the two chains.
  lemma {:induction false} ChainsCoverSlots(c: Chains, capacity: nat, s: nat)
    requires ChainsOk(c, capacity) && s < capacity
    ensures s in c.used <==> s !in c.free
  {
    if s !in c.used && s !in c.free {
      var q := c.used + c.free;
      assert forall i, j :: 0 <= i < j < |q| ==> q[i] != q[j];
      assert forall i :: 0 <= i < |q| ==> q[i] < capacity && q[i] != s;
      Pigeonhole(q, capacity, s);
    }
  }

  // Distinct numbers below n, with s left out, are fewer than n.
  lemma Pigeonhole(q: seq<nat>, n: nat, s: nat)
    requires forall i, j :: 0 <= i < j < |q| ==> q[i] != q[j]
    requires forall i :: 0 <= i < |q| ==> q[i] < n && q[i] != s
    requires s < n
    ensures |q| < n
  {
    ElementsCount(q);
    assert Elements(q) <= Below(n) - {s};
    SubsetCount(Elements(q), Below(n) - {s});
  }

  ghost function Elements(q: seq<nat>): (r: set<nat>)
    ensures forall x :: x in r <==> x in q
  {
    set x | x in q
  }

  lemma {:induction false} ElementsCount(q: seq<nat>)
    requires forall i, j :: 0 <= i < j < |q| ==> q[i] != q[j]
    ensures |Elements(q)| == |q|
  {
    if q != [] {
      ElementsCount(q[1..]);
      assert q[0] !in q[1..];
      assert Elements(q) == Elements(q[1..]) + {q[0]};
    }
  }

  ghost function Below(n: nat): (r: set<nat>)
    ensures |r| == n && forall x: nat :: x in r <==> x < n
  {
    if n == 0 then {} else Below(n - 1) + {n - 1}
  }

  lemma {:induction false} SubsetCount<T>(a: set<T>, b: set<T>)
    requires a <= b
    ensures |a| <= |b|
  {
    if x :| x in a {
      SubsetCount(a - {x}, b - {x});
    }
  }

  lemma Apart(c: Chains, k: nat, capacity: nat)
    requires ChainsOk(c, capacity) && k < |c.used|
    ensures 0 < capacity < END && c.used[k] < capacity
    ensures c.used[0] == c.used[|c.used| - 1] <==> |c.used| == 1
    ensures forall i :: 0 <= i < |c.used| && i != k ==> c.used[i] != c.used[k]
    ensures forall i :: 0 <= i < |c.free| ==> c.free[i] != c.used[k]
  {
  }

  // The first and the last element after a deletion.
  ghost function FirstWithout(q: seq<nat>, k: nat): nat
    requires |q| > 1 && k < |q|
  {
    if k == 0 then q[1] else q[0]
  }

  ghost function LastWithout(q: seq<nat>, k: nat): nat
    requires |q| > 1 && k < |q|
  {
    if k == |q| - 1 then q[|q| - 2] else q[|q| - 1]
  }

  // The length and the ends of the two chains.
  ghost predicate EndsOk(c: Chains, n: nat, begin: nat, end: nat, empty: nat) {
    && n == |c.used|
    && begin == (if c.used == [] then END else c.used[0])
    && end == (if c.used == [] then END else c.used[|c.used| - 1])
    && empty == (if c.free == [] then END else c.free[0])
  }

  lemma Ends(c: Chains, n: nat, begin: nat, end: nat, empty: nat)
    requires EndsOk(c, n, begin, end, empty)
    ensures n == |c.used| && empty == if c.free == [] then END else c.free[0]
    ensures c.used != [] ==> begin == c.used[0] && end == c.used[|c.used| - 1]
  {
  }

  lemma EndsWithout(c: Chains, k: nat, capacity: nat)
    requires |c.used| > 1 && k < |c.used|
    ensures
      var d := Deleted(c, k, capacity);
      && |d.used| == |c.used| - 1 && d.used[0] == FirstWithout(c.used, k) && d.used[|d.used| - 1] == LastWithout(c.used, k)
      && d.free != [] && d.free[0] == c.used[k]
      && EndsOk(d, |c.used| - 1, FirstWithout(c.used, k), LastWithout(c.used, k), c.used[k])
  {
    if k == 0 {
      assert c.used[..k] == [];
    } else if k == |c.used| - 1 {
      assert c.used[k + 1..] == [];
    }
  }

  lemma EndsAppended(c: Chains)
    requires c.free != []
    ensures
      EndsOk(AddedEnd(c), |c.used| + 1, if c.used == [] then c.free[0] else c.used[0], c.free[0],
        if |c.free| > 1 then c.free[1] else END)
  {
  }

  lemma EndsPrepended(c: Chains)
    requires c.free != []
    ensures
      EndsOk(AddedBeginning(c), |c.used| + 1, c.free[0], if c.used == [] then c.free[0] else c.used[|c.used| - 1],
        if |c.free| > 1 then c.free[1] else END)
  {
  }

  lemma NextFree(c: Chains, capacity: nat)
    requires ChainsOk(c, capacity) && c.free != []
    ensures c.free[0] < capacity < END && (c.used == [] ==> c.free[0] == 0)
    ensures forall i :: 0 <= i < |c.used| ==> c.used[i] != c.free[0]
    ensures forall i :: 1 <= i < |c.free| ==> c.free[i] != c.free[0]
  {
  }

  lemma SlotsBelowEnd(c: Chains, capacity: nat)
    requires ChainsOk(c, capacity)
    ensures c.free != [] ==> c.free[0] < END
    ensures forall i, j :: 0 <= i < j < |c.used| ==> c.used[i] != c.used[j]
    ensures forall i :: 0 <= i < |c.used| ==> c.used[i] < capacity
  {
  }

  function Position(q: seq<nat>, s: nat): (k: nat)
    requires s in q
    ensures k < |q| && q[k] == s && s !in q[..k]
  {
    if q[0] == s then 0 else Position(q[1..], s) + 1
  }

  // The element a slot holds.
  function ElementIn<T>(used: seq<nat>, contents: seq<T>, s: nat): T
    requires s in used && |contents| == |used|
  {
    contents[Position(used, s)]
  }

  lemma ElementAt<T>(used: seq<nat>, contents: seq<T>, i: nat)
    requires i < |used| == |contents| && forall i, j :: 0 <= i < j < |used| ==> used[i] != used[j]
    ensures used[i] in used && ElementIn(used, contents, used[i]) == contents[i]
  {
    PositionOf(used, i);
  }

  // A handle stays valid, and holds its element, when others are added
  lemma HandlesStayOnAdd<T>(c: Chains, contents: seq<T>, el: T, s: nat, capacity: nat)
    requires ChainsOk(c, capacity) && |contents| == |c.used| && s in c.used && c.free != []
    ensures s in AddedEnd(c).used && ElementIn(AddedEnd(c).used, contents + [el], s) == ElementIn(c.used, contents, s)
    ensures s in AddedBeginning(c).used
         && ElementIn(AddedBeginning(c).used, [el] + contents, s) == ElementIn(c.used, contents, s)
  {
    hide Position;
    var i := Position(c.used, s);
    AddedEndOk(c, capacity);
    ElementAt(AddedEnd(c).used, contents + [el], i);
    AddedBeginningOk(c, capacity);
    ElementAt(AddedBeginning(c).used, [el] + contents, i + 1);
  }

  // and when another one is deleted.
  lemma HandlesStayOnDelete<T>(c: Chains, contents: seq<T>, k: nat, s: nat, capacity: nat)
    requires ChainsOk(c, capacity) && |contents| == |c.used| && s in c.used && k < |c.used| && c.used[k] != s
    ensures s in Deleted(c, k, capacity).used
    ensures ElementIn(Deleted(c, k, capacity).used, contents[..k] + contents[k + 1..], s) == ElementIn(c.used, contents, s)
  {
    hide Position;
    var i := Position(c.used, s);
    DeletedOk(c, k, capacity);
    ElementAt(Deleted(c, k, capacity).used, contents[..k] + contents[k + 1..], if i < k then i else i - 1);
  }

  // Moving an element to the front keeps its slot, and the free chain, unless
  // it is the only element: then it ends in slot 0.
  lemma MoveToInitSlot(c: Chains, k: nat, capacity: nat)
    requires ChainsOk(c, capacity) && k < |c.used|
    ensures
      var d := AddedBeginning(Deleted(c, k, capacity));
      && (|c.used| > 1 ==> d == Chains([c.used[k]] + c.used[..k] + c.used[k + 1..], c.free))
      && (|c.used| == 1 ==> d.used == [0])
      && Deleted(c, k, capacity).free != [] && d.used[0] == Deleted(c, k, capacity).free[0]
  {
    if |c.used| > 1 {
      assert [c.used[k]] + (c.used[..k] + c.used[k + 1..]) == [c.used[k]] + c.used[..k] + c.used[k + 1..];
    }
  }

  // ---- links ----

  ghost predicate UsedLinkAt<T>(s: seq<Slot<T>>, used: seq<nat>, i: nat)
    requires i < |used|
  {
    && used[i] < |s| && s[used[i]].data.Some?
    && s[used[i]].next == (if i + 1 < |used| then used[i + 1] else END)
    && s[used[i]].prev == (if i > 0 then used[i - 1] else END)
  }

  ghost predicate UsedLinks<T>(s: seq<Slot<T>>, used: seq<nat>) {
    forall i: nat :: i < |used| ==> UsedLinkAt(s, used, i)
  }

  ghost predicate FreeLinkAt<T>(s: seq<Slot<T>>, free: seq<nat>, i: nat)
    requires i < |free|
  {
    free[i] < |s| && s[free[i]].nextEmpty == if i + 1 < |free| then free[i + 1] else END
  }

  ghost predicate FreeLinks<T>(s: seq<Slot<T>>, free: seq<nat>) {
    forall i: nat :: i < |free| ==> FreeLinkAt(s, free, i)
  }

  lemma FreeTail<T>(s: seq<Slot<T>>, free: seq<nat>)
    requires FreeLinks(s, free) && free != []
    ensures FreeLinks(s, free[1..])
    ensures free[0] < |s| && s[free[0]].nextEmpty == if |free| > 1 then free[1] else END
  {
    assert FreeLinkAt(s, free, 0);
    forall i: nat | i < |free[1..]|
      ensures FreeLinkAt(s, free[1..], i)
    {
      assert FreeLinkAt(s, free, i + 1);
    }
  }

  lemma FreeFrame<T>(s: seq<Slot<T>>, t: seq<Slot<T>>, free: seq<nat>)
    requires FreeLinks(s, free) && |s| == |t|
    requires forall i :: 0 <= i < |free| && free[i] < |s| ==> t[free[i]].nextEmpty == s[free[i]].nextEmpty
    ensures FreeLinks(t, free)
  {
    forall i: nat | i < |free|
      ensures FreeLinkAt(t, free, i)
    {
      assert FreeLinkAt(s, free, i);
    }
  }

  lemma FreePush<T>(s: seq<Slot<T>>, t: seq<Slot<T>>, free: seq<nat>, x: nat)
    requires FreeLinks(s, free) && |s| == |t| && x < |t|
    requires forall i :: 0 <= i < |free| && free[i] < |s| ==> t[free[i]].nextEmpty == s[free[i]].nextEmpty
    requires t[x].nextEmpty == if free == [] then END else free[0]
    ensures FreeLinks(t, [x] + free)
  {
    forall i: nat | i < |[x] + free|
      ensures FreeLinkAt(t, [x] + free, i)
    {
      if i > 0 { assert FreeLinkAt(s, free, i - 1); }
    }
  }

  lemma UsedAppend<T>(s: seq<Slot<T>>, t: seq<Slot<T>>, used: seq<nat>, x: nat)
    requires UsedLinks(s, used) && |s| == |t| && used != [] && x < |s|
    requires t[x].data.Some? && t[x].prev == used[|used| - 1] && t[x].next == END
    requires forall i :: 0 <= i < |used| && used[i] < |s| ==>
      t[used[i]] == if i == |used| - 1 then s[used[i]].(next := x) else s[used[i]]
    ensures UsedLinks(t, used + [x])
  {
    forall i: nat | i < |used + [x]|
      ensures UsedLinkAt(t, used + [x], i)
    {
      if i < |used| { assert UsedLinkAt(s, used, i); }
    }
  }

  lemma UsedPrepend<T>(s: seq<Slot<T>>, t: seq<Slot<T>>, used: seq<nat>, x: nat)
    requires UsedLinks(s, used) && |s| == |t| && used != [] && x < |s|
    requires t[x].data.Some? && t[x].prev == END && t[x].next == used[0]
    requires forall i :: 0 <= i < |used| && used[i] < |s| ==>
      t[used[i]] == if i == 0 then s[used[i]].(prev := x) else s[used[i]]
    ensures UsedLinks(t, [x] + used)
  {
    forall i: nat | i < |[x] + used|
      ensures UsedLinkAt(t, [x] + used, i)
    {
      if i > 0 { assert UsedLinkAt(s, used, i - 1); }
    }
  }

  lemma OnlyElement<T>(s: seq<Slot<T>>, x: nat)
    requires x < |s| && s[x].data.Some? && s[x].prev == END && s[x].next == END
    ensures UsedLinks(s, [x])
  {
    assert UsedLinkAt(s, [x], 0);
  }

  lemma NoneUsed<T>(s: seq<Slot<T>>)
    ensures UsedLinks(s, [])
  {
  }

  lemma IdentityLinks<T>(s: seq<Slot<T>>)
    requires forall i :: 0 <= i < |s| ==> s[i].nextEmpty == if i + 1 < |s| then i + 1 else END
    ensures FreeLinks(s, Identity(|s|))
  {
  }

  lemma LinksAt<T>(s: seq<Slot<T>>, used: seq<nat>, k: nat)
    requires UsedLinks(s, used) && k < |used|
    ensures used[k] < |s| && s[used[k]].data.Some?
    ensures s[used[k]].next == if k + 1 < |used| then used[k + 1] else END
    ensures s[used[k]].prev == if k > 0 then used[k - 1] else END
  {
    assert UsedLinkAt(s, used, k);
  }

  // The neighbours of a deleted element are linked to each other.
  lemma UsedDelete<T>(s: seq<Slot<T>>, t: seq<Slot<T>>, used: seq<nat>, k: nat)
    requires UsedLinks(s, used) && |s| == |t| && |used| > 1 && k < |used| && used[k] < |s|
    requires forall i :: 0 <= i < |used| && i != k && used[i] < |s| ==>
      && t[used[i]].data == s[used[i]].data
      && t[used[i]].next == (if i + 1 == k then s[used[k]].next else s[used[i]].next)
      && t[used[i]].prev == (if i == k + 1 then s[used[k]].prev else s[used[i]].prev)
    ensures UsedLinks(t, used[..k] + used[k + 1..])
  {
    var u := used[..k] + used[k + 1..];
    assert UsedLinkAt(s, used, k);
    forall i: nat | i < |u|
      ensures UsedLinkAt(t, u, i)
    {
      assert UsedLinkAt(s, used, if i < k then i else i + 1);
    }
  }

  // The elements in list order.
  ghost function Values<T>(s: seq<Slot<T>>, used: seq<nat>): (r: seq<T>)
    requires UsedLinks(s, used)
    ensures |r| == |used|
    ensures forall i: nat :: i < |used| ==> UsedLinkAt(s, used, i) && r[i] == s[used[i]].data.value
  {
    seq(|used|, i requires 0 <= i < |used| => (LinksAt(s, used, i); s[used[i]].data.value))
  }

  lemma ValuesAre<T>(s: seq<Slot<T>>, used: seq<nat>, r: seq<T>)
    requires UsedLinks(s, used) && |r| == |used|
    requires forall i :: 0 <= i < |used| && used[i] < |s| ==> s[used[i]].data == Some(r[i])
    ensures Values(s, used) == r
  {
    forall i: nat | i < |used|
      ensures Values(s, used)[i] == r[i]
    {
      LinksAt(s, used, i);
    }
  }

  // Elements that stay in their slots keep their values.
  lemma ValuesKept<T>(s: seq<Slot<T>>, t: seq<Slot<T>>, used: seq<nat>, i: nat)
    requires UsedLinks(s, used) && i < |used| && |s| == |t|
    requires used[i] < |s| ==> t[used[i]].data == s[used[i]].data
    ensures used[i] < |t| && t[used[i]].data == Some(Values(s, used)[i])
  {
    LinksAt(s, used, i);
  }

  lemma ContentsAppended<T>(s: seq<Slot<T>>, t: seq<Slot<T>>, used: seq<nat>, x: nat, el: T)
    requires UsedLinks(s, used) && UsedLinks(t, used + [x]) && |s| == |t| && x < |t| && t[x].data == Some(el)
    requires forall i :: 0 <= i < |used| && used[i] < |s| ==> t[used[i]].data == s[used[i]].data
    ensures Values(t, used + [x]) == Values(s, used) + [el]
  {
    forall i: nat | i < |used + [x]|
      ensures (used + [x])[i] < |t| && t[(used + [x])[i]].data == Some((Values(s, used) + [el])[i])
    {
      if i < |used| { ValuesKept(s, t, used, i); }
    }
    ValuesAre(t, used + [x], Values(s, used) + [el]);
  }

  lemma ContentsPrepended<T>(s: seq<Slot<T>>, t: seq<Slot<T>>, used: seq<nat>, x: nat, el: T)
    requires UsedLinks(s, used) && UsedLinks(t, [x] + used) && |s| == |t| && x < |t| && t[x].data == Some(el)
    requires forall i :: 0 <= i < |used| && used[i] < |s| ==> t[used[i]].data == s[used[i]].data
    ensures Values(t, [x] + used) == [el] + Values(s, used)
  {
    forall i: nat | i < |[x] + used|
      ensures ([x] + used)[i] < |t| && t[([x] + used)[i]].data == Some(([el] + Values(s, used))[i])
    {
      if i > 0 { ValuesKept(s, t, used, i - 1); }
    }
    ValuesAre(t, [x] + used, [el] + Values(s, used));
  }

  lemma ContentsDeleted<T>(s: seq<Slot<T>>, t: seq<Slot<T>>, used: seq<nat>, k: nat)
    requires UsedLinks(s, used) && k < |used| && UsedLinks(t, used[..k] + used[k + 1..]) && |s| == |t|
    requires forall i :: 0 <= i < |used| && i != k && used[i] < |s| ==> t[used[i]].data == s[used[i]].data
    ensures Values(t, used[..k] + used[k + 1..]) == Values(s, used)[..k] + Values(s, used)[k + 1..]
  {
    var u, r := used[..k] + used[k + 1..], Values(s, used)[..k] + Values(s, used)[k + 1..];
    forall i: nat | i < |u|
      ensures u[i] < |t| && t[u[i]].data == Some(r[i])
    {
      ValuesKept(s, t, used, if i < k then i else i + 1);
    }
    ValuesAre(t, u, r);
  }

  // Facts about the ends of the chains that the operations rely on.
  lemma Bounds<T>(s: seq<Slot<T>>, c: Chains)
    requires ChainsOk(c, |s|) && UsedLinks(s, c.used)
    ensures 0 < |s| < END
    ensures c.free != [] ==> c.free[0] < |s| && (c.used == [] ==> c.free[0] == 0)
    ensures c.used != [] ==> c.used[0] < |s| && c.used[|c.used| - 1] < |s|
    ensures c.used != [] && c.free != [] ==> c.free[0] != c.used[0] && c.free[0] != c.used[|c.used| - 1]
  {
  }

  lemma AddedEndLinks<T>(s: seq<Slot<T>>, t: seq<Slot<T>>, c: Chains, el: T)
    requires ChainsOk(c, |s|) && UsedLinks(s, c.used) && FreeLinks(s, c.free) && c.free != [] && |s| == |t|
    requires
      var x := c.free[0];
      && x < |s|
      && t[x] == Slot(Some(el), if c.used == [] then END else c.used[|c.used| - 1], END, s[x].nextEmpty)
      && forall y :: 0 <= y < |s| && y != x ==>
        t[y] == s[y].(next := if c.used != [] && y == c.used[|c.used| - 1] then x else s[y].next)
    ensures
      var d := AddedEnd(c);
      && ChainsOk(d, |t|) && UsedLinks(t, d.used) && FreeLinks(t, d.free)
      && EndsOk(d, |c.used| + 1, if c.used == [] then c.free[0] else c.used[0], c.free[0], s[c.free[0]].nextEmpty)
      && Values(t, d.used) == Values(s, c.used) + [el]
  {
    hide UsedLinks, FreeLinks, ChainsOk, Values, EndsOk;
    var x := c.free[0];
    AddedEndOk(c, |s|);
    EndsAppended(c);
    FreeTail(s, c.free);
    NextFree(c, |s|);
    SlotsBelowEnd(c, |s|);
    if c.used == [] {
      assert c.used + [x] == [x];
      OnlyElement(t, x);
    } else {
      UsedAppend(s, t, c.used, x);
    }
    FreeFrame(s, t, c.free[1..]);
    ContentsAppended(s, t, c.used, x, el);
  }

  lemma AddedBeginningLinks<T>(s: seq<Slot<T>>, t: seq<Slot<T>>, c: Chains, el: T)
    requires ChainsOk(c, |s|) && UsedLinks(s, c.used) && FreeLinks(s, c.free) && c.free != [] && |s| == |t|
    requires
      var x := c.free[0];
      && x < |s|
      && t[x] == Slot(Some(el), END, if c.used == [] then END else c.used[0], s[x].nextEmpty)
      && forall y :: 0 <= y < |s| && y != x ==>
        t[y] == s[y].(prev := if c.used != [] && y == c.used[0] then x else s[y].prev)
    ensures
      var d := AddedBeginning(c);
      && ChainsOk(d, |t|) && UsedLinks(t, d.used) && FreeLinks(t, d.free)
      && EndsOk(d, |c.used| + 1, c.free[0], if c.used == [] then c.free[0] else c.used[|c.used| - 1], s[c.free[0]].nextEmpty)
      && Values(t, d.used) == [el] + Values(s, c.used)
  {
    hide UsedLinks, FreeLinks, ChainsOk, Values, EndsOk;
    var x := c.free[0];
    AddedBeginningOk(c, |s|);
    EndsPrepended(c);
    FreeTail(s, c.free);
    NextFree(c, |s|);
    SlotsBelowEnd(c, |s|);
    if c.used == [] {
      assert [x] + c.used == [x];
      OnlyElement(t, x);
    } else {
      UsedPrepend(s, t, c.used, x);
    }
    FreeFrame(s, t, c.free[1..]);
    ContentsPrepended(s, t, c.used, x, el);
  }

  lemma OnlyDeletedLinks<T>(s: seq<Slot<T>>, t: seq<Slot<T>>, c: Chains)
    requires ChainsOk(c, |s|) && UsedLinks(s, c.used) && |c.used| == 1 && |s| == |t|
    requires forall i :: 0 <= i < |t| ==> t[i].nextEmpty == if i + 1 < |t| then i + 1 else END
    ensures
      var d := Deleted(c, 0, |s|);
      && ChainsOk(d, |t|) && UsedLinks(t, d.used) && FreeLinks(t, d.free) && EndsOk(d, 0, END, END, 0)
      && Values(t, d.used) == Values(s, c.used)[..0] + Values(s, c.used)[1..]
  {
    hide UsedLinks, FreeLinks, ChainsOk, Values;
    Bounds(s, c);
    DeletedOk(c, 0, |s|);
    NoneUsed(t);
    IdentityLinks(t);
  }

  ghost predicate Bypassed<T>(s: seq<Slot<T>>, t: seq<Slot<T>>, used: seq<nat>, k: nat) {
    && k < |used| && used[k] < |s| == |t|
    && forall x :: 0 <= x < |s| ==>
      t[x] == s[x].(next := if k > 0 && x == used[k - 1] then s[used[k]].next else s[x].next,
                    prev := if k + 1 < |used| && x == used[k + 1] then s[used[k]].prev else s[x].prev)
  }

  lemma DeletedLinks<T>(s: seq<Slot<T>>, t: seq<Slot<T>>, u: seq<Slot<T>>, c: Chains, k: nat)
    requires ChainsOk(c, |s|) && UsedLinks(s, c.used) && FreeLinks(s, c.free) && Bypassed(s, t, c.used, k) && |c.used| > 1
    requires u == t[c.used[k] := t[c.used[k]].(nextEmpty := if c.free == [] then END else c.free[0], data := None)]
    ensures
      var d := Deleted(c, k, |s|);
      && ChainsOk(d, |u|) && UsedLinks(u, d.used) && FreeLinks(u, d.free)
      && EndsOk(d, |c.used| - 1, FirstWithout(c.used, k), LastWithout(c.used, k), c.used[k])
      && Values(u, d.used) == Values(s, c.used)[..k] + Values(s, c.used)[k + 1..]
    ensures u[c.used[k]].data == None && u[c.used[k]].next == s[c.used[k]].next
  {
    hide UsedLinks, FreeLinks, ChainsOk, Values, FirstWithout, LastWithout;
    Apart(c, k, |s|);
    SlotsBelowEnd(c, |s|);
    DeletedOk(c, k, |s|);
    EndsWithout(c, k, |s|);
    UsedDelete(s, u, c.used, k);
    FreePush(s, u, c.free, c.used[k]);
    ContentsDeleted(s, u, c.used, k);
  }

  class List<T> {
    const slots: array<Slot<T>>
    var n: nat
    var begin: nat
    var end: nat
    var empty: nat
    ghost var chains: Chains

    ghost predicate Valid()
      reads this, slots
    {
      && ChainsOk(chains, slots.Length) && UsedLinks(slots[..], chains.used) && FreeLinks(slots[..], chains.free)
      && EndsOk(chains, n, begin, end, empty)
    }

    ghost function Contents(): (r: seq<T>)
      requires Valid()
      reads this, slots
      ensures |r| == |chains.used|
    {
      Values(slots[..], chains.used)
    }

    // The element in a slot of the list.
    lemma At(k: nat)
      requires Valid() && k < |chains.used|
      ensures chains.used[k] < slots.Length && slots[chains.used[k]].data == Some(Contents()[k])
      ensures slots[chains.used[k]].next == if k + 1 < |chains.used| then chains.used[k + 1] else END
      ensures chains.used[k] in chains.used && Position(chains.used, chains.used[k]) == k
    {
      LinksAt(slots[..], chains.used, k);
      PositionOf(chains.used, k);
    }

    // set_list_size
    constructor (capacity: nat)
      requires 0 < capacity < END
      ensures Valid() && fresh(slots) && slots.Length == capacity && chains == Chains([], Identity(capacity))
    {
      slots := new Slot<T>[capacity](i => Slot(None, END, END, i + 1));
      n, begin, end, empty := 0, END, END, 0;
      chains := Chains([], Identity(capacity));
      new;
      slots[capacity - 1] := slots[capacity - 1].(nextEmpty := END);
    }

    method AddEnd(el: T) returns (pos: Option<nat>)
      requires Valid()
      modifies this, slots
      ensures Valid()
      ensures old(chains.free) == [] ==> pos == None && chains == old(chains) && slots[..] == old(slots[..])
      ensures old(chains.free) != [] ==>
        && pos == Some(old(chains.free)[0]) && chains == AddedEnd(old(chains))
        && Contents() == old(Contents()) + [el]
    {
      hide UsedLinks, FreeLinks, ChainsOk, Values, AddedEnd, EndsOk;
      ghost var c, s := chains, slots[..];
      Bounds(s, c);
      Ends(c, n, begin, end, empty);
      if empty == END { return None; }
      var i;
      if n == 0 {
        i, begin, end := 0, 0, 0;
        slots[i] := slots[i].(data := Some(el), prev := END, next := END);
        empty := slots[i].nextEmpty;
      } else {
        i := empty;
        slots[i] := slots[i].(data := Some(el), prev := end, next := END);
        slots[end] := slots[end].(next := i);
        end := i;
        empty := slots[i].nextEmpty;
      }
      chains := AddedEnd(chains);
      n := n + 1;
      AddedEndLinks(s, slots[..], c, el);
      return Some(i);
    }

    method AddBeginning(el: T) returns (pos: Option<nat>)
      requires Valid()
      modifies this, slots
      ensures Valid()
      ensures old(chains.free) == [] ==> pos == None && chains == old(chains) && slots[..] == old(slots[..])
      ensures old(chains.free) != [] ==>
        && pos == Some(old(chains.free)[0]) && chains == AddedBeginning(old(chains))
        && Contents() == [el] + old(Contents())
    {
      hide UsedLinks, FreeLinks, ChainsOk, Values, AddedBeginning, EndsOk;
      ghost var c, s, was := chains, slots[..], Contents();
      Bounds(s, c);
      Ends(c, n, begin, end, empty);
      if empty == END { return None; }
      var i;
      if n == 0 {
        i, begin, end := 0, 0, 0;
        slots[i] := slots[i].(data := Some(el), prev := END, next := END);
        empty := slots[i].nextEmpty;
      } else {
        i := empty;
        slots[i] := slots[i].(data := Some(el), prev := END, next := begin);
        slots[begin] := slots[begin].(prev := i);
        begin := i;
        empty := slots[i].nextEmpty;
      }
      chains := AddedBeginning(chains);
      n := n + 1;
      AddedBeginningLinks(s, slots[..], c, el);
      assert Contents() == [el] + was;
      return Some(i);
    }

    // The links of a deleted slot are left as they were, so that a caller in
    // the middle of the list can go on from it.
    method Delete(pos: nat)
      requires Valid() && pos in chains.used
      modifies this, slots
      ensures Valid() && chains == Deleted(old(chains), Position(old(chains.used), pos), slots.Length)
      ensures
        var k := Position(old(chains.used), pos);
        Contents() == old(Contents())[..k] + old(Contents())[k + 1..]
      ensures slots[pos].data == None && slots[pos].next == old(slots[pos].next)
    {
      hide UsedLinks, FreeLinks, ChainsOk, Values, Deleted, Bypassed, FirstWithout, LastWithout, EndsOk;
      ghost var c, s, k := chains, slots[..], Position(chains.used, pos);
      ghost var was := Contents();
      Ends(c, n, begin, end, empty);
      Apart(c, k, slots.Length);
      if begin == end {
        begin, end, empty := END, END, 0;
        Rethread();
        slots[pos] := slots[pos].(data := None);
        n := n - 1;
        chains := Deleted(chains, k, slots.Length);
        OnlyDeletedLinks(s, slots[..], c);
      } else {
        Bypass(pos, k);
        ghost var t := slots[..];
        slots[pos] := slots[pos].(nextEmpty := empty, data := None);
        empty := pos;
        n := n - 1;
        chains := Deleted(chains, k, slots.Length);
        DeletedLinks(s, t, slots[..], c, k);
        assert begin == FirstWithout(c.used, k) && end == LastWithout(c.used, k);
        assert EndsOk(chains, n, begin, end, empty);
      }
      assert Contents() == was[..k] + was[k + 1..];
    }

    // The first, last and middle cases of a deletion: the neighbours of the
    // element are linked to each other.
    method Bypass(pos: nat, ghost k: nat)
      requires Valid() && |chains.used| > 1 && k < |chains.used| && chains.used[k] == pos
      modifies this`begin, this`end, slots
      ensures begin == FirstWithout(chains.used, k) && end == LastWithout(chains.used, k)
      ensures Bypassed(old(slots[..]), slots[..], chains.used, k)
    {
      hide UsedLinks, FreeLinks;
      LinksAt(slots[..], chains.used, k);
      assert (pos == begin <==> k == 0) && (pos == end <==> k == |chains.used| - 1);
      if pos == begin {
        begin := slots[pos].next;
        slots[begin] := slots[begin].(prev := END);
      } else if pos == end {
        end := slots[pos].prev;
        slots[end] := slots[end].(next := END);
      } else {
        var prev, next := slots[pos].prev, slots[pos].next;
        slots[prev] := slots[prev].(next := next);
        slots[next] := slots[next].(prev := prev);
      }
    }

    // Deleting the only element makes the free chain the identity again.
    method Rethread()
      requires slots.Length > 0
      modifies slots
      ensures forall s :: 0 <= s < slots.Length ==>
        slots[s] == old(slots[s]).(nextEmpty := if s + 1 < slots.Length then s + 1 else END)
    {
      var i := 0;
      while i < slots.Length
        invariant i <= slots.Length
        invariant forall s :: 0 <= s < slots.Length ==>
          slots[s] == if s < i then old(slots[s]).(nextEmpty := s + 1) else old(slots[s])
      {
        slots[i] := slots[i].(nextEmpty := i + 1);
        i := i + 1;
      }
      slots[slots.Length - 1] := slots[slots.Length - 1].(nextEmpty := END);
    }

    method MoveToInit(pos: nat) returns (r: nat)
      requires Valid() && pos in chains.used
      modifies this, slots
      ensures Valid()
      ensures
        var k := Position(old(chains.used), pos);
        && chains == AddedBeginning(Deleted(old(chains), k, slots.Length)) && r == chains.used[0]
        && r == (if |old(chains.used)| == 1 then 0 else pos)
        && Contents() == [old(Contents())[k]] + (old(Contents())[..k] + old(Contents())[k + 1..])
    {
      hide ChainsOk, UsedLinks, FreeLinks, Values, Deleted, AddedBeginning, Position;
      At(Position(chains.used, pos));
      var data := slots[pos].data.value;
      MoveToInitSlot(chains, Position(chains.used, pos), slots.Length);
      Delete(pos);
      var p := AddBeginning(data);
      r := p.value;
    }

    method DeleteFirst()
      requires Valid() && chains.used != []
      modifies this, slots
      ensures Valid() && chains == Deleted(old(chains), 0, slots.Length)
      ensures Contents() == old(Contents())[1..]
    {
      hide UsedLinks, FreeLinks, Values, Deleted;
      At(0);
      ghost var was := Contents();
      Delete(begin);
      assert was[..0] + was[0 + 1..] == was[1..];
    }

    method DeleteLast()
      requires Valid() && chains.used != []
      modifies this, slots
      ensures Valid() && chains == Deleted(old(chains), |old(chains.used)| - 1, slots.Length)
      ensures Contents() == old(Contents())[..|old(Contents())| - 1]
    {
      hide ChainsOk, UsedLinks, FreeLinks, Values, Deleted, Position;
      At(|chains.used| - 1);
      ghost var was := Contents();
      Delete(end);
      assert was[..|was| - 1] + was[|was|..] == was[..|was| - 1];
    }
  }

  lemma PositionOf(q: seq<nat>, k: nat)
    requires k < |q| && forall i, j :: 0 <= i < j < |q| ==> q[i] != q[j]
    ensures q[k] in q && Position(q, q[k]) == k
  {
  }
}
