// The disk request queue of kernel/src_kernel/external_hd.c.
module DiskQueue {
  import opened Common

  // CONFIG_KERNEL_MAX_HD_OPERATIONS and CONFIG_KERNEL_EXTERNAL_HD_SECTOR_SIZE
  const MAX_OPERATIONS: nat := 1000
  const SECTOR: nat := 20480

  datatype Kind = Open | Close | Read | Write

  // The device takes its time for reads and writes and then interrupts; the
  // other requests are done when they are started.
  predicate Deferred(k: Kind) {
    k == Read || k == Write
  }

  // One entry of the ring.
  datatype Op = Op(kind: Kind, len: nat, offset: nat, intermediate: nat, callback: Option<nat>)

  // A request of the kernel; its callback is never null.
  datatype Request = Request(kind: Kind, len: nat, callback: nat)

  // A callback that was called, with the value it got.
  datatype Fired = Fired(callback: nat, value: nat)

  // What the environment does when an operation completes: the device's count
  // and the requests the callback makes.
  datatype Reply = Reply(count: nat, more: seq<Request>)

  // Stopped: the script of the environment ends here.
  datatype Outcome<+T> = Done(value: T) | Panic | Stopped {
    predicate IsFailure() { !Done? }

    function PropagateFailure<U>(): Outcome<U>
      requires IsFailure()
    {
      if Panic? then Panic else Stopped
    }

    function Extract(): T
      requires !IsFailure()
    {
      value
    }
  }

  datatype Queue = Queue(pending: seq<Op>, idle: bool, log: seq<Fired>, script: seq<Reply>)

  // ---- requests ----

  // external_hd_request_read_file and its siblings: long transfers are split,
  // and only the last piece carries the callback.
  function Pieces(r: Request, done: nat): (ops: seq<Op>)
    requires done <= r.len
    ensures |ops| > 0 && ops[|ops| - 1].callback == Some(r.callback)
    ensures forall i :: 0 <= i < |ops| ==> ops[i].kind == r.kind && ops[i].intermediate == 0
    ensures forall i :: 0 <= i < |ops| - 1 ==> ops[i].callback == None && ops[i].len == SECTOR
    decreases r.len - done
  {
    if done + SECTOR < r.len then [Op(r.kind, SECTOR, done, 0, None)] + Pieces(r, done + SECTOR)
    else [Op(r.kind, r.len - done, done, 0, Some(r.callback))]
  }

  function Expand(r: Request): (ops: seq<Op>)
    ensures |ops| > 0 && ops[|ops| - 1].callback == Some(r.callback)
    ensures forall i :: 0 <= i < |ops| ==> ops[i].kind == r.kind && ops[i].intermediate == 0
    ensures forall i :: 0 <= i < |ops| - 1 ==> ops[i].callback == None
    ensures !Deferred(r.kind) ==> |ops| == 1
  {
    if Deferred(r.kind) then Pieces(r, 0) else [Op(r.kind, 0, 0, 0, Some(r.callback))]
  }

  // ---- the four entry points ----

  // external_hd_request_job
  function Enqueue(q: Queue, op: Op): (r: Outcome<Queue>)
    ensures r.Done? ==> |r.value.script| <= |q.script|
    ensures !q.idle && |q.pending| < MAX_OPERATIONS ==> r == Done(q.(pending := q.pending + [op]))
    decreases |q.script|, 2, 0
  {
    if |q.pending| >= MAX_OPERATIONS then Panic
    else
      var t := q.(pending := q.pending + [op]);
      if t.idle then Start(t) else Done(t)
  }

  function EnqueueAll(q: Queue, ops: seq<Op>): (r: Outcome<Queue>)
    ensures r.Done? ==> |r.value.script| <= |q.script|
    decreases |q.script|, 3, |ops|
  {
    if ops == [] then Done(q)
    else
      var t :- Enqueue(q, ops[0]);
      EnqueueAll(t, ops[1..])
  }

  // The requests of a callback, one after the other.
  function AskAll(q: Queue, requests: seq<Request>): (r: Outcome<Queue>)
    ensures r.Done? ==> |r.value.script| <= |q.script|
    decreases |q.script|, 4, |requests|
  {
    if requests == [] then Done(q)
    else
      var t :- EnqueueAll(q, Expand(requests[0]));
      AskAll(t, requests[1..])
  }

  // external_hd_next_request
  function Start(q: Queue): (r: Outcome<Queue>)
    requires q.pending != []
    ensures r.Done? ==> |r.value.script| <= |q.script|
    decreases |q.script|, 1, 0
  {
    var t := q.(idle := false);
    match t.pending[0].kind
    case Read => Done(t)
    case Write => Done(t)
    case Open =>
      if t.script == [] then Stopped
      else Complete(t.(script := t.script[1..]), t.script[0].count, t.script[0].more)
    case Close =>
      if t.script == [] then Stopped
      else Complete(t.(script := t.script[1..]), 1, t.script[0].more)
  }

  // external_hd_request_processed: the callback runs while the entry is still
  // in the ring, and a piece without a callback hands its sum to the next one.
  function Complete(q: Queue, count: nat, more: seq<Request>): (r: Outcome<Queue>)
    requires q.pending != []
    ensures r.Done? ==> |r.value.script| <= |q.script|
    decreases |q.script|, 5, 0
  {
    var head := q.pending[0];
    if head.callback.Some? then
      var t :- AskAll(q.(log := q.log + [Fired(head.callback.value, count + head.intermediate)]), more);
      Next(t)
    else
      var rest := q.pending[1..];
      Next(q.(pending := [head] + if rest == [] then [] else [rest[0].(intermediate := count + head.intermediate)] + rest[1..]))
  }

  // The end of external_hd_request_processed
  function Next(q: Queue): (r: Outcome<Queue>)
    ensures r.Done? ==> |r.value.script| <= |q.script|
    decreases |q.script|, 2, 0
  {
    var t := q.(pending := if q.pending == [] then [] else q.pending[1..], idle := true);
    if t.pending != [] then Start(t) else Done(t)
  }

  // ---- what the kernel and the device do ----

  function Ask(q: Queue, r: Request): Outcome<Queue> {
    EnqueueAll(q, Expand(r))
  }

  // external_hd_interrupt
  function Interrupt(q: Queue, count: nat, more: seq<Request>): Outcome<Queue>
    requires q.pending != []
  {
    if Deferred(q.pending[0].kind) then Complete(q, count, more) else Panic
  }

  // ---- the reference: requests in order, each with the counts so far ----

  datatype Job = Job(request: Request, counts: seq<nat>)

  datatype Ledger = Ledger(jobs: seq<Job>, finished: seq<Job>, asked: seq<Request>)

  function Sum(s: seq<nat>): nat {
    if s == [] then 0 else s[0] + Sum(s[1..])
  }

  lemma {:induction false} SumAppend(s: seq<nat>, n: nat)
    ensures Sum(s + [n]) == Sum(s) + n
  {
    if s == [] {
      assert s + [n] == [n];
    } else {
      assert (s + [n])[1..] == s[1..] + [n];
      SumAppend(s[1..], n);
    }
  }

  function Fresh(requests: seq<Request>): (jobs: seq<Job>)
    ensures |jobs| == |requests| && forall i :: 0 <= i < |jobs| ==> jobs[i] == Job(requests[i], [])
  {
    seq(|requests|, i requires 0 <= i < |requests| => Job(requests[i], []))
  }

  function Asked(l: Ledger, requests: seq<Request>): Ledger {
    l.(jobs := l.jobs + Fresh(requests), asked := l.asked + requests)
  }

  // One piece of the first request completes; with the last piece the request
  // is finished and its callback makes its requests.
  function Completed(l: Ledger, count: nat, more: seq<Request>): Ledger
    requires l.jobs != []
  {
    var j := l.jobs[0];
    var k := j.(counts := j.counts + [count]);
    if |k.counts| < |Expand(j.request)| then l.(jobs := [k] + l.jobs[1..])
    else Asked(l.(jobs := l.jobs[1..], finished := l.finished + [k]), more)
  }

  // Requests that need no interrupt complete as soon as they come first.
  function Settled(l: Ledger, script: seq<Reply>): (r: Outcome<(Ledger, seq<Reply>)>)
    decreases |script|
  {
    if l.jobs == [] || Deferred(l.jobs[0].request.kind) then Done((l, script))
    else if script == [] then Stopped
    else
      var count := if l.jobs[0].request.kind == Open then script[0].count else 1;
      Settled(Completed(l, count, script[0].more), script[1..])
  }

  // ---- the queue keeps the ledger ----

  ghost predicate JobOk(j: Job) {
    |j.counts| < |Expand(j.request)|
  }

  // What is left of a request, its sum so far with the first piece.
  ghost function Left(j: Job): seq<Op> {
    if JobOk(j) then
      var ops := Expand(j.request)[|j.counts|..];
      [ops[0].(intermediate := Sum(j.counts))] + ops[1..]
    else []
  }

  ghost function Flat(jobs: seq<Job>): seq<Op> {
    if jobs == [] then [] else Left(jobs[0]) + Flat(jobs[1..])
  }

  function Outcomes(finished: seq<Job>): (log: seq<Fired>)
    ensures |log| == |finished|
    ensures forall i :: 0 <= i < |log| ==> log[i] == Fired(finished[i].request.callback, Sum(finished[i].counts))
  {
    seq(|finished|, i requires 0 <= i < |finished| => Fired(finished[i].request.callback, Sum(finished[i].counts)))
  }

  function RequestsOf(jobs: seq<Job>): (r: seq<Request>)
    ensures |r| == |jobs| && forall i :: 0 <= i < |r| ==> r[i] == jobs[i].request
  {
    seq(|jobs|, i requires 0 <= i < |jobs| => jobs[i].request)
  }

  // Each callback was called once, in the order of the requests, with the sum
  // of the counts of all its pieces; and the rest is waiting in that order.
  ghost predicate Kept(q: Queue, l: Ledger) {
    && (forall i :: 0 <= i < |l.jobs| ==> JobOk(l.jobs[i]))
    && (forall i :: 1 <= i < |l.jobs| ==> l.jobs[i].counts == [])
    && q.pending == Flat(l.jobs)
    && (forall i :: 0 <= i < |l.finished| ==> |l.finished[i].counts| == |Expand(l.finished[i].request)|)
    && q.log == Outcomes(l.finished)
    && l.asked == RequestsOf(l.finished) + RequestsOf(l.jobs)
  }

  // Between calls the queue is idle exactly when it is empty, and otherwise
  // waits for the device.
  ghost predicate Resting(q: Queue) {
    && (q.idle <==> q.pending == [])
    && (q.pending != [] ==> Deferred(q.pending[0].kind))
  }

  lemma {:induction false} FlatConcat(a: seq<Job>, b: seq<Job>)
    ensures Flat(a + b) == Flat(a) + Flat(b)
    decreases |a|
  {
    hide Left;
    if a == [] {
      assert a + b == b;
    } else {
      assert (a + b)[1..] == a[1..] + b;
      FlatConcat(a[1..], b);
    }
  }

  lemma LeftFresh(r: Request)
    ensures JobOk(Job(r, [])) && Left(Job(r, [])) == Expand(r)
  {
    var ops := Expand(r);
    assert ops[0..] == ops && ops[0].(intermediate := 0) == ops[0];
  }

  // Enqueueing while the device is busy only appends.
  lemma {:induction false} BusyEnqueueAll(q: Queue, ops: seq<Op>)
    requires !q.idle
    ensures EnqueueAll(q, ops) ==
      if |q.pending| + |ops| <= MAX_OPERATIONS || ops == [] then Done(q.(pending := q.pending + ops)) else Panic
    decreases |ops|
  {
    if ops == [] {
      assert q.pending + ops == q.pending;
    } else if |q.pending| < MAX_OPERATIONS {
      var t := q.(pending := q.pending + [ops[0]]);
      BusyEnqueueAll(t, ops[1..]);
      assert t.pending + ops[1..] == q.pending + ops;
    }
  }

  ghost function ExpandAll(requests: seq<Request>): seq<Op> {
    if requests == [] then [] else Expand(requests[0]) + ExpandAll(requests[1..])
  }

  lemma {:induction false} BusyAskAll(q: Queue, requests: seq<Request>)
    requires !q.idle
    ensures AskAll(q, requests).Done? ==> AskAll(q, requests) == Done(q.(pending := q.pending + ExpandAll(requests)))
    decreases |requests|
  {
    if requests == [] {
      assert q.pending + [] == q.pending;
    } else {
      BusyEnqueueAll(q, Expand(requests[0]));
      var t := EnqueueAll(q, Expand(requests[0]));
      if t.Done? {
        BusyAskAll(t.value, requests[1..]);
        assert q.pending + Expand(requests[0]) + ExpandAll(requests[1..]) == q.pending + (Expand(requests[0]) + ExpandAll(requests[1..]));
      }
    }
  }

  lemma {:induction false} FlatFresh(requests: seq<Request>)
    ensures (forall i :: 0 <= i < |Fresh(requests)| ==> JobOk(Fresh(requests)[i])) && Flat(Fresh(requests)) == ExpandAll(requests)
  {
    if requests != [] {
      LeftFresh(requests[0]);
      assert Fresh(requests)[1..] == Fresh(requests[1..]);
      FlatFresh(requests[1..]);
    }
  }

  // ---- one completion ----

  // The first entry, by the request it belongs to.
  lemma HeadOf(q: Queue, l: Ledger)
    requires Kept(q, l) && l.jobs != []
    ensures q.pending != [] && q.pending == Left(l.jobs[0]) + Flat(l.jobs[1..])
    ensures
      var j, head := l.jobs[0], q.pending[0];
      && JobOk(j) && head.kind == j.request.kind && head.intermediate == Sum(j.counts)
      && head.callback == (if |j.counts| + 1 == |Expand(j.request)| then Some(j.request.callback) else None)
  {
  }

  lemma EmptyQueue(q: Queue, l: Ledger)
    requires Kept(q, l)
    ensures q.pending == [] <==> l.jobs == []
  {
    if l.jobs != [] { HeadOf(q, l); }
  }

  // A piece that is not the last one.
  lemma PieceDone(q: Queue, l: Ledger, count: nat, more: seq<Request>)
    requires Kept(q, l) && l.jobs != [] && |l.jobs[0].counts| + 1 < |Expand(l.jobs[0].request)|
    ensures |q.pending| > 1
    ensures
      var rest := q.pending[1..];
      Kept(q.(pending := [rest[0].(intermediate := count + q.pending[0].intermediate)] + rest[1..], idle := true),
           Completed(l, count, more))
  {
    hide Left, Expand;
    HeadOf(q, l);
    var j := l.jobs[0];
    var k := j.(counts := j.counts + [count]);
    SumAppend(j.counts, count);
    NextPiece(j, count);
    var left, later := Left(j)[1..], Flat(l.jobs[1..]);
    assert q.pending[1..] == left + later;
    assert (left + later)[1..] == left[1..] + later;
    assert Left(k) == [Left(k)[0]] + Left(k)[1..];
    assert [Left(k)[0]] + (Left(k)[1..] + later) == Left(k) + later;
    var t := Completed(l, count, more);
    assert t.jobs[1..] == l.jobs[1..];
    assert RequestsOf(t.jobs) == RequestsOf(l.jobs);
  }

  lemma NextPiece(j: Job, count: nat)
    requires |j.counts| + 1 < |Expand(j.request)|
    ensures |Left(j)| > 1 && |Left(j.(counts := j.counts + [count]))| > 0
    ensures
      var k, rest := j.(counts := j.counts + [count]), Left(j)[1..];
      && JobOk(k) && rest[0].(intermediate := count + Sum(j.counts)) == Left(k)[0] && rest[1..] == Left(k)[1..]
  {
    SumAppend(j.counts, count);
    var ops := Expand(j.request);
    assert ops[|j.counts|..][1..] == ops[|j.counts| + 1..];
  }

  lemma LastPiece(j: Job)
    requires |j.counts| + 1 == |Expand(j.request)|
    ensures |Left(j)| == 1
  {
  }

  // The last piece: the callback gets the sum and makes its requests.
  lemma RequestDone(q: Queue, l: Ledger, count: nat, more: seq<Request>)
    requires Kept(q, l) && l.jobs != [] && |l.jobs[0].counts| + 1 == |Expand(l.jobs[0].request)|
    ensures q.pending != []
    ensures
      var head := q.pending[0];
      Kept(q.(pending := q.pending[1..] + ExpandAll(more), idle := true,
              log := q.log + [Fired(l.jobs[0].request.callback, count + head.intermediate)]),
           Completed(l, count, more))
  {
    hide Left, Flat, Expand, RequestsOf;
    HeadOf(q, l);
    var j := l.jobs[0];
    var k := j.(counts := j.counts + [count]);
    SumAppend(j.counts, count);
    LastPiece(j);
    assert q.pending[1..] == Flat(l.jobs[1..]);
    FlatFresh(more);
    FlatConcat(l.jobs[1..], Fresh(more));
    var t := Completed(l, count, more);
    LedgerDone(l, k, more);
    forall i | 0 <= i < |t.jobs|
      ensures JobOk(t.jobs[i]) && (i > 0 ==> t.jobs[i].counts == [])
    {
      if i >= |l.jobs| - 1 { LeftFresh(more[i - (|l.jobs| - 1)]); }
    }
    assert Outcomes(t.finished) == Outcomes(l.finished) + [Fired(j.request.callback, Sum(k.counts))];
  }

  lemma LedgerDone(l: Ledger, k: Job, more: seq<Request>)
    requires l.jobs != [] && k.request == l.jobs[0].request && l.asked == RequestsOf(l.finished) + RequestsOf(l.jobs)
    ensures l.asked + more == RequestsOf(l.finished + [k]) + RequestsOf(l.jobs[1..] + Fresh(more))
  {
    assert RequestsOf(l.finished + [k]) == RequestsOf(l.finished) + [k.request];
    assert RequestsOf(l.jobs) == [k.request] + RequestsOf(l.jobs[1..]);
    assert RequestsOf(l.jobs[1..] + Fresh(more)) == RequestsOf(l.jobs[1..]) + more;
  }

  // ---- whole calls ----

  ghost predicate Agrees(r: Queue, s: Outcome<(Ledger, seq<Reply>)>) {
    s.Done? && Kept(r, s.value.0) && r.script == s.value.1 && Resting(r)
  }

  lemma {:induction false} StartAgrees(q: Queue, l: Ledger)
    requires Kept(q, l) && l.jobs != [] && q.pending != []
    ensures Start(q).Done? ==> Agrees(Start(q).value, Settled(l, q.script))
    decreases |q.script|, 0
  {
    hide Completed, Flat, Kept, Complete;
    HeadOf(q, l);
    var t := q.(idle := false);
    IdleFlag(q, l, false);
    if !Deferred(l.jobs[0].request.kind) && q.script != [] {
      var count := if l.jobs[0].request.kind == Open then q.script[0].count else 1;
      ScriptKept(t, l, q.script[1..]);
      CompleteAgrees(t.(script := q.script[1..]), l, count, q.script[0].more);
    }
  }

  lemma IdleFlag(q: Queue, l: Ledger, idle: bool)
    requires Kept(q, l)
    ensures Kept(q.(idle := idle), l)
  {
  }

  lemma ScriptKept(q: Queue, l: Ledger, script: seq<Reply>)
    requires Kept(q, l)
    ensures Kept(q.(script := script), l)
  {
  }

  lemma {:induction false} CompleteAgrees(q: Queue, l: Ledger, count: nat, more: seq<Request>)
    requires Kept(q, l) && l.jobs != [] && q.pending != [] && !q.idle
    ensures Complete(q, count, more).Done? ==>
      Agrees(Complete(q, count, more).value, Settled(Completed(l, count, more), q.script))
    decreases |q.script|, 2
  {
    hide Flat, Kept, Settled, Completed, Start;
    HeadOf(q, l);
    var head, t := q.pending[0], Completed(l, count, more);
    if |l.jobs[0].counts| + 1 == |Expand(l.jobs[0].request)| {
      RequestDone(q, l, count, more);
      var fired := q.(log := q.log + [Fired(head.callback.value, count + head.intermediate)]);
      BusyAskAll(fired, more);
      if AskAll(fired, more).Done? {
        var r := fired.(pending := q.pending[1..] + ExpandAll(more), idle := true);
        assert (q.pending + ExpandAll(more))[1..] == q.pending[1..] + ExpandAll(more);
        NextAgrees(r, t);
      }
    } else {
      PieceDone(q, l, count, more);
      var rest := q.pending[1..];
      var r := q.(pending := [rest[0].(intermediate := count + head.intermediate)] + rest[1..], idle := true);
      assert ([head] + r.pending)[1..] == r.pending;
      NextAgrees(r, t);
    }
  }

  // The end of a completion: the next request, if there is one, is started.
  lemma {:induction false} NextAgrees(r: Queue, t: Ledger)
    requires Kept(r, t) && r.idle
    ensures r.pending == [] ==> Agrees(r, Settled(t, r.script))
    ensures r.pending != [] && Start(r).Done? ==> Agrees(Start(r).value, Settled(t, r.script))
    decreases |r.script|, 1
  {
    hide Flat, Kept, Start;
    EmptyQueue(r, t);
    if r.pending != [] { StartAgrees(r, t); }
  }

  // A request of the kernel, between calls.
  lemma AskAgrees(q: Queue, l: Ledger, r: Request)
    requires Kept(q, l) && Resting(q)
    ensures Ask(q, r).Done? ==> Agrees(Ask(q, r).value, Settled(Asked(l, [r]), q.script))
    ensures !q.idle ==> (Ask(q, r).Done? <==> |q.pending| + |Expand(r)| <= MAX_OPERATIONS)
  {
    hide Flat, Kept;
    var t := q.(pending := q.pending + Expand(r));
    AskedKept(q, l, r);
    EmptyQueue(q, l);
    if !q.idle {
      BusyEnqueueAll(q, Expand(r));
      HeadOf(q, l);
    } else {
      AskIdle(q, r);
      IdleFlag(t, Asked(l, [r]), false);
      StartAgrees(t, Asked(l, [r]));
    }
  }

  // The first request starts at once; the later pieces of a transfer queue up
  // behind the first.
  lemma AskIdle(q: Queue, r: Request)
    requires q.idle && q.pending == []
    ensures Ask(q, r).Done? ==> Ask(q, r) == Start(q.(pending := q.pending + Expand(r)))
  {
    hide Start, Enqueue;
    if Deferred(r.kind) {
      FirstPieceStarts(q, Expand(r));
    } else {
      SinglePieceStarts(q, Expand(r));
    }
  }

  lemma FirstPieceStarts(q: Queue, ops: seq<Op>)
    requires q.idle && q.pending == [] && ops != [] && Deferred(ops[0].kind)
    ensures EnqueueAll(q, ops).Done? ==> EnqueueAll(q, ops) == Start(q.(pending := q.pending + ops))
  {
    hide Complete;
    var t := q.(pending := q.pending + [ops[0]]);
    assert t.pending == [ops[0]] && (q.pending + ops)[0] == ops[0];
    assert Enqueue(q, ops[0]) == Done(t.(idle := false));
    BusyEnqueueAll(t.(idle := false), ops[1..]);
    assert t.pending + ops[1..] == q.pending + ops;
  }

  lemma SinglePieceStarts(q: Queue, ops: seq<Op>)
    requires q.idle && q.pending == [] && |ops| == 1
    ensures EnqueueAll(q, ops).Done? ==> EnqueueAll(q, ops) == Start(q.(pending := q.pending + ops))
  {
    hide Start;
    assert ops == [ops[0]] && ops[1..] == [];
    var u := Enqueue(q, ops[0]);
    assert u == Start(q.(pending := q.pending + ops));
    if u.Done? { assert EnqueueAll(u.value, ops[1..]) == u; }
  }

  lemma AskedKept(q: Queue, l: Ledger, r: Request)
    requires Kept(q, l)
    ensures Kept(q.(pending := q.pending + Expand(r)), Asked(l, [r]))
  {
    hide Left, Expand;
    LeftFresh(r);
    FlatConcat(l.jobs, Fresh([r]));
    assert Fresh([r])[1..] == [];
    assert Flat(Fresh([r])) == Expand(r);
    assert RequestsOf(l.jobs + Fresh([r])) == RequestsOf(l.jobs) + [r];
  }

  // ---- any sequence of requests and interrupts ----

  datatype Event = Requested(request: Request) | Interrupted(count: nat, more: seq<Request>)

  // The device interrupts only while it works on a request.
  function RunFrom(q: Queue, events: seq<Event>): Outcome<Queue>
    decreases |events|
  {
    if events == [] then Done(q)
    else
      var t :- (match events[0]
                case Requested(r) => Ask(q, r)
                case Interrupted(count, more) => if q.pending == [] then Panic else Interrupt(q, count, more));
      RunFrom(t, events[1..])
  }

  function LedgerFrom(l: Ledger, script: seq<Reply>, events: seq<Event>): Outcome<(Ledger, seq<Reply>)>
    decreases |events|
  {
    if events == [] then Done((l, script))
    else
      var t :- (match events[0]
                case Requested(r) => Settled(Asked(l, [r]), script)
                case Interrupted(count, more) => if l.jobs == [] then Panic else Settled(Completed(l, count, more), script));
      LedgerFrom(t.0, t.1, events[1..])
  }

  lemma EventAgrees(q: Queue, l: Ledger, e: Event)
    requires Kept(q, l) && Resting(q)
    ensures
      match e
      case Requested(r) => Ask(q, r).Done? ==> Agrees(Ask(q, r).value, Settled(Asked(l, [r]), q.script))
      case Interrupted(count, more) =>
        (q.pending == [] <==> l.jobs == [])
        && (q.pending != [] && Interrupt(q, count, more).Done? ==>
              Agrees(Interrupt(q, count, more).value, Settled(Completed(l, count, more), q.script)))
  {
    hide Kept, Settled, Completed, Complete, Ask, Asked;
    EmptyQueue(q, l);
    match e
    case Requested(r) => AskAgrees(q, l, r);
    case Interrupted(count, more) =>
      if q.pending != [] { CompleteAgrees(q, l, count, more); }
  }

  lemma {:induction false} RunAgrees(q: Queue, l: Ledger, events: seq<Event>)
    requires Kept(q, l) && Resting(q) && RunFrom(q, events).Done?
    ensures Agrees(RunFrom(q, events).value, LedgerFrom(l, q.script, events))
    decreases |events|
  {
    hide Kept, Resting, Settled, Completed, Interrupt, Ask, Asked;
    if events != [] {
      EventAgrees(q, l, events[0]);
      match events[0]
      case Requested(r) => RunAgrees(Ask(q, r).value, Settled(Asked(l, [r]), q.script).value.0, events[1..]);
      case Interrupted(count, more) =>
        RunAgrees(Interrupt(q, count, more).value, Settled(Completed(l, count, more), q.script).value.0, events[1..]);
    }
  }

  // ---- enough ring space ----

  // The pieces that wait or are being worked on.
  ghost function Load(l: Ledger): nat {
    |Flat(l.jobs)|
  }

  // A callback runs while its own entry is still in the ring.
  ghost predicate MayComplete(l: Ledger, more: seq<Request>) {
    l.jobs != [] && (|l.jobs[0].counts| + 1 == |Expand(l.jobs[0].request)| ==> Load(l) + |ExpandAll(more)| <= MAX_OPERATIONS)
  }

  // The script answers each request that is done at once, and the requests
  // their callbacks make fit.
  ghost predicate MaySettle(l: Ledger, script: seq<Reply>)
    decreases |script|
  {
    l.jobs == [] || Deferred(l.jobs[0].request.kind) ||
    (script != [] && MayComplete(l, script[0].more) &&
     MaySettle(Completed(l, if l.jobs[0].request.kind == Open then script[0].count else 1, script[0].more), script[1..]))
  }

  ghost predicate RunFits(l: Ledger, script: seq<Reply>, events: seq<Event>)
    decreases |events|
  {
    events == [] ||
    match events[0]
    case Requested(r) =>
      var t := Settled(Asked(l, [r]), script);
      Load(l) + |Expand(r)| <= MAX_OPERATIONS && MaySettle(Asked(l, [r]), script) &&
      t.Done? && RunFits(t.value.0, t.value.1, events[1..])
    case Interrupted(count, more) =>
      MayComplete(l, more) && MaySettle(Completed(l, count, more), script) &&
      var t := Settled(Completed(l, count, more), script);
      t.Done? && RunFits(t.value.0, t.value.1, events[1..])
  }

  ghost predicate DoneWithin(r: Outcome<Queue>) {
    r.Done? && |r.value.pending| <= MAX_OPERATIONS
  }

  lemma {:induction false} BusyAskAllFits(q: Queue, requests: seq<Request>)
    requires !q.idle && |q.pending| <= MAX_OPERATIONS
    ensures AskAll(q, requests).Done? <==> |q.pending| + |ExpandAll(requests)| <= MAX_OPERATIONS
    decreases |requests|
  {
    if requests != [] {
      BusyEnqueueAll(q, Expand(requests[0]));
      var t := EnqueueAll(q, Expand(requests[0]));
      if t.Done? { BusyAskAllFits(t.value, requests[1..]); }
    }
  }

  lemma LoadIs(q: Queue, l: Ledger)
    requires Kept(q, l)
    ensures Load(l) == |q.pending|
  {
  }

  lemma {:induction false} StartFits(q: Queue, l: Ledger)
    requires Kept(q, l) && l.jobs != [] && q.pending != [] && |q.pending| <= MAX_OPERATIONS
    ensures Start(q).Done? <==> MaySettle(l, q.script)
    ensures Start(q).Done? ==> DoneWithin(Start(q))
    decreases |q.script|, 0
  {
    hide Completed, Flat, Kept, Complete, MayComplete;
    HeadOf(q, l);
    var t := q.(idle := false);
    IdleFlag(q, l, false);
    if !Deferred(l.jobs[0].request.kind) && q.script != [] {
      var count := if l.jobs[0].request.kind == Open then q.script[0].count else 1;
      ScriptKept(t, l, q.script[1..]);
      CompleteFits(t.(script := q.script[1..]), l, count, q.script[0].more);
    }
  }

  lemma CompleteFails(q: Queue, count: nat, more: seq<Request>)
    requires q.pending != [] && q.pending[0].callback.Some?
    requires !AskAll(q.(log := q.log + [Fired(q.pending[0].callback.value, count + q.pending[0].intermediate)]), more).Done?
    ensures !Complete(q, count, more).Done?
  {
    hide AskAll;
  }

  lemma {:induction false} CompleteFits(q: Queue, l: Ledger, count: nat, more: seq<Request>)
    requires Kept(q, l) && l.jobs != [] && q.pending != [] && !q.idle && |q.pending| <= MAX_OPERATIONS
    ensures Complete(q, count, more).Done? <==> MayComplete(l, more) && MaySettle(Completed(l, count, more), q.script)
    ensures Complete(q, count, more).Done? ==> DoneWithin(Complete(q, count, more))
    decreases |q.script|, 2
  {
    hide Complete, Flat, MaySettle, Completed, Start, Kept, Load, AskAll, ExpandAll;
    HeadOf(q, l);
    LoadIs(q, l);
    var head, t := q.pending[0], Completed(l, count, more);
    if |l.jobs[0].counts| + 1 == |Expand(l.jobs[0].request)| {
      RequestDone(q, l, count, more);
      var fired := q.(log := q.log + [Fired(head.callback.value, count + head.intermediate)]);
      BusyAskAll(fired, more);
      BusyAskAllFits(fired, more);
      if AskAll(fired, more).Done? {
        var before := fired.(pending := q.pending + ExpandAll(more));
        var r := fired.(pending := q.pending[1..] + ExpandAll(more), idle := true);
        assert before.pending[1..] == r.pending;
        CompleteIs(q, count, more, before, r);
        NextFits(r, t);
      } else {
        CompleteFails(q, count, more);
      }
    } else {
      PieceDone(q, l, count, more);
      var rest := q.pending[1..];
      var r := q.(pending := [rest[0].(intermediate := count + head.intermediate)] + rest[1..], idle := true);
      CompleteIs(q, count, more, q, r);
      NextFits(r, t);
    }
  }

  lemma {:induction false} NextFits(r: Queue, t: Ledger)
    requires Kept(r, t) && r.idle && |r.pending| <= MAX_OPERATIONS
    ensures r.pending == [] ==> MaySettle(t, r.script)
    ensures r.pending != [] ==> (Start(r).Done? <==> MaySettle(t, r.script)) && (Start(r).Done? ==> DoneWithin(Start(r)))
    decreases |r.script|, 1
  {
    hide Flat, Kept, Start;
    EmptyQueue(r, t);
    if r.pending != [] { StartFits(r, t); }
  }

  lemma AskFits(q: Queue, l: Ledger, r: Request)
    requires Kept(q, l) && Resting(q) && |q.pending| <= MAX_OPERATIONS
    ensures Ask(q, r).Done? <==> Load(l) + |Expand(r)| <= MAX_OPERATIONS && MaySettle(Asked(l, [r]), q.script)
    ensures Ask(q, r).Done? ==> DoneWithin(Ask(q, r))
  {
    hide Flat, Kept, Load;
    LoadIs(q, l);
    var t := q.(pending := q.pending + Expand(r));
    AskedKept(q, l, r);
    EmptyQueue(q, l);
    if !q.idle {
      BusyEnqueueAll(q, Expand(r));
      HeadOf(q, l);
    } else {
      AskIdle(q, r);
      IdleAskFits(q, r);
      if |Expand(r)| <= MAX_OPERATIONS { StartFits(t, Asked(l, [r])); }
    }
  }

  lemma IdleAskFits(q: Queue, r: Request)
    requires q.idle && q.pending == []
    ensures Ask(q, r).Done? <==> |Expand(r)| <= MAX_OPERATIONS && Start(q.(pending := q.pending + Expand(r))).Done?
  {
    hide Complete;
    var ops := Expand(r);
    if Deferred(r.kind) {
      var t := q.(pending := q.pending + [ops[0]]);
      assert t.pending == [ops[0]] && (q.pending + ops)[0] == ops[0];
      assert Enqueue(q, ops[0]) == Done(t.(idle := false));
      BusyEnqueueAll(t.(idle := false), ops[1..]);
    } else {
      assert ops == [ops[0]] && ops[1..] == [];
      var u := Enqueue(q, ops[0]);
      assert u == Start(q.(pending := q.pending + ops));
      if u.Done? { assert EnqueueAll(u.value, ops[1..]) == u; }
    }
  }

  // A run ends normally if and only if the ring is never asked to hold more
  // than it can and the script does not end too early.
  lemma {:induction false} RunDoneExactly(q: Queue, l: Ledger, events: seq<Event>)
    requires Kept(q, l) && Resting(q) && |q.pending| <= MAX_OPERATIONS
    ensures RunFrom(q, events).Done? <==> RunFits(l, q.script, events)
    decreases |events|
  {
    hide Settled, Completed, Ask, Asked, Complete, MaySettle, Load;
    if events != [] {
      EventAgrees(q, l, events[0]);
      EmptyQueue(q, l);
      hide Kept;
      match events[0]
      case Requested(r) =>
        AskFits(q, l, r);
        if Ask(q, r).Done? {
          RunDoneExactly(Ask(q, r).value, Settled(Asked(l, [r]), q.script).value.0, events[1..]);
        }
      case Interrupted(count, more) =>
        if q.pending != [] {
          CompleteFits(q, l, count, more);
          if Complete(q, count, more).Done? {
            RunDoneExactly(Complete(q, count, more).value, Settled(Completed(l, count, more), q.script).value.0, events[1..]);
          }
        }
    }
  }

  lemma EnoughSpace(script: seq<Reply>, events: seq<Event>)
    ensures RunFrom(Queue([], true, [], script), events).Done? <==> RunFits(Ledger([], [], []), script, events)
  {
    RunDoneExactly(Queue([], true, [], script), Ledger([], [], []), events);
  }

  // From the start, in every run that fits: every request is finished or
  // waiting, in the order they were made; each finished one had its callback
  // called once, in that order, with the sum of the device's counts, one for
  // each of its pieces.
  lemma CallbacksInOrder(script: seq<Reply>, events: seq<Event>)
    requires RunFits(Ledger([], [], []), script, events)
    ensures RunFrom(Queue([], true, [], script), events).Done?
    ensures
      var q, s := RunFrom(Queue([], true, [], script), events).value, LedgerFrom(Ledger([], [], []), script, events);
      && s.Done? && Resting(q)
      && var l := s.value.0;
      && l.asked == RequestsOf(l.finished) + RequestsOf(l.jobs)
      && q.log == Outcomes(l.finished) && q.pending == Flat(l.jobs)
      && (q.idle <==> l.jobs == [])
      && forall i :: 0 <= i < |l.finished| ==> |l.finished[i].counts| == |Expand(l.finished[i].request)|
  {
    var q0, l0 := Queue([], true, [], script), Ledger([], [], []);
    EnoughSpace(script, events);
    RunAgrees(q0, l0, events);
    EmptyQueue(RunFrom(q0, events).value, LedgerFrom(l0, script, events).value.0);
  }

  // The pieces of a transfer cover it, in order and without gaps.
  lemma {:induction false} PiecesCover(r: Request, done: nat)
    requires done <= r.len
    ensures
      var ops := Pieces(r, done);
      && ops[0].offset == done
      && (forall i :: 0 <= i < |ops| ==> ops[i].len <= SECTOR)
      && (forall i :: 0 <= i < |ops| - 1 ==> ops[i + 1].offset == ops[i].offset + ops[i].len)
      && ops[|ops| - 1].offset + ops[|ops| - 1].len == r.len
    decreases r.len - done
  {
    if done + SECTOR < r.len {
      PiecesCover(r, done + SECTOR);
      var rest := Pieces(r, done + SECTOR);
      var ops := Pieces(r, done);
      assert forall i :: 1 <= i < |ops| ==> ops[i] == rest[i - 1];
    }
  }

  // ---- the ring ----

  function Wrapped(i: nat): nat {
    if i >= MAX_OPERATIONS then i - MAX_OPERATIONS else i
  }

  ghost function Ring(ops: seq<Op>, start: nat, n: nat): (r: seq<Op>)
    requires |ops| == MAX_OPERATIONS && start < MAX_OPERATIONS && n <= MAX_OPERATIONS
    ensures |r| == n && forall i :: 0 <= i < n ==> r[i] == ops[Wrapped(start + i)]
  {
    seq(n, i requires 0 <= i < n => ops[Wrapped(start + i)])
  }

  class Disk {
    const operations: array<Op>
    var listStart: nat
    var listEnd: nat
    var available: nat
    var idle: bool
    // What the callbacks were told, and what the environment will do.
    var log: seq<Fired>
    var script: seq<Reply>

    ghost predicate Valid()
      reads this
    {
      && operations.Length == MAX_OPERATIONS && listStart < MAX_OPERATIONS && available <= MAX_OPERATIONS
      && listEnd == Wrapped(listStart + (MAX_OPERATIONS - available))
      && listEnd < MAX_OPERATIONS
    }

    ghost function View(): Queue
      requires Valid()
      reads this, operations
    {
      Queue(Ring(operations[..], listStart, MAX_OPERATIONS - available), idle, log, script)
    }

    // initialize_external_hd
    constructor (script: seq<Reply>)
      ensures Valid() && View() == Queue([], true, [], script)
    {
      operations := new Op[MAX_OPERATIONS](_ => Op(Open, 0, 0, 0, None));
      listStart, listEnd, available, idle := 0, 0, MAX_OPERATIONS, true;
      log := [];
      this.script := script;
    }

    // external_hd_request_job
    method RequestJob(op: Op) returns (o: Outcome<()>)
      requires Valid()
      modifies this, operations
      ensures
        match Enqueue(old(View()), op)
        case Done(q) => o.Done? && Valid() && View() == q
        case Panic => o == Panic
        case Stopped => o == Stopped
      decreases |script|, 2
    {
      hide Start;
      if available == 0 { return Panic; }
      available := available - 1;
      operations[listEnd] := op;
      listEnd := listEnd + 1;
      if listEnd == MAX_OPERATIONS { listEnd := 0; }
      RingPush(old(operations[..]), operations[..], listStart, MAX_OPERATIONS - old(available), op);
      if idle {
        o := NextRequest();
      } else {
        o := Done(());
      }
    }

    // external_hd_request_read_file and the other requests
    method Request(r: Request) returns (o: Outcome<()>)
      requires Valid()
      modifies this, operations
      ensures
        match EnqueueAll(old(View()), Expand(r))
        case Done(q) => o.Done? && Valid() && View() == q
        case Panic => o == Panic
        case Stopped => o == Stopped
      decreases |script|, 3
    {
      hide Enqueue;
      if r.kind == Open || r.kind == Close {
        OnePiece(View(), r);
        o := RequestJob(Op(r.kind, 0, 0, 0, Some(r.callback)));
        return;
      }
      var i, ac := SECTOR, 0;
      while i < r.len
        invariant Valid() && i == ac + SECTOR && ac <= r.len && |script| <= old(|script|)
        invariant EnqueueAll(View(), Pieces(r, ac)) == EnqueueAll(old(View()), Expand(r))
      {
        o := RequestJob(Op(r.kind, SECTOR, ac, 0, None));
        if !o.Done? { return; }
        ac := ac + SECTOR;
        i := i + SECTOR;
      }
      LastOfPieces(View(), r, ac);
      o := RequestJob(Op(r.kind, r.len - ac, ac, 0, Some(r.callback)));
    }

    // The callback of a finished request, and the requests it makes.
    method CallBack(callback: nat, value: nat, more: seq<Request>) returns (o: Outcome<()>)
      requires Valid()
      modifies this, operations
      ensures
        match AskAll(old(View()).(log := old(log) + [Fired(callback, value)]), more)
        case Done(q) => o.Done? && Valid() && View() == q
        case Panic => o == Panic
        case Stopped => o == Stopped
      decreases |script|, 4
    {
      hide Enqueue, EnqueueAll;
      log := log + [Fired(callback, value)];
      ghost var before := View();
      var i := 0;
      while i < |more|
        invariant Valid() && i <= |more| && |script| <= old(|script|)
        invariant AskAll(View(), more[i..]) == AskAll(before, more)
      {
        o := Request(more[i]);
        if !o.Done? { return; }
        i := i + 1;
      }
      o := Done(());
    }

    // The finished entry leaves the ring.
    method Advance(mustAdd: bool, sum: nat)
      requires Valid() && available < MAX_OPERATIONS
      modifies this, operations
      ensures Valid() && script == old(script)
      ensures
        var q := old(View());
        var rest := q.pending[1..];
        View() == q.(pending := if mustAdd && rest != [] then [rest[0].(intermediate := sum)] + rest[1..] else rest, idle := true)
    {
      ghost var ops, start, n := operations[..], listStart, MAX_OPERATIONS - available;
      available := available + 1;
      listStart := listStart + 1;
      if listStart == MAX_OPERATIONS { listStart := 0; }
      if mustAdd {
        operations[listStart] := operations[listStart].(intermediate := sum);
        RingCarry(ops, operations[..], start, n, sum);
      } else {
        RingPop(ops, start, n);
      }
      idle := true;
    }

    // external_hd_request_processed
    method RequestProcessed(count: nat, more: seq<Request>) returns (o: Outcome<()>)
      requires Valid() && available < MAX_OPERATIONS && !idle
      modifies this, operations
      ensures
        match Complete(old(View()), count, more)
        case Done(q) => o.Done? && Valid() && View() == q
        case Panic => o == Panic
        case Stopped => o == Stopped
      decreases |script|, 5
    {
      hide Start, AskAll;
      var head := operations[listStart];
      var mustAdd, toAdd := false, 0;
      if head.callback.Some? {
        BusyAskAll(View().(log := log + [Fired(head.callback.value, count + head.intermediate)]), more);
        o := CallBack(head.callback.value, count + head.intermediate, more);
        if !o.Done? { return; }
      } else {
        mustAdd, toAdd := true, head.intermediate;
      }
      ghost var before := View();
      Advance(mustAdd, count + toAdd);
      CompleteIs(old(View()), count, more, before, View());
      if available < MAX_OPERATIONS {
        o := NextRequest();
      } else {
        o := Done(());
      }
    }

    // external_hd_next_request
    method NextRequest() returns (o: Outcome<()>)
      requires Valid() && available < MAX_OPERATIONS
      modifies this, operations
      ensures
        match Start(old(View()))
        case Done(q) => o.Done? && Valid() && View() == q
        case Panic => o == Panic
        case Stopped => o == Stopped
      decreases |script|, 1
    {
      hide Complete;
      idle := false;
      match operations[listStart].kind
      case Read => return Done(());
      case Write => return Done(());
      case Open =>
        if script == [] { return Stopped; }
        var reply := script[0];
        script := script[1..];
        o := RequestProcessed(reply.count, reply.more);
      case Close =>
        if script == [] { return Stopped; }
        var reply := script[0];
        script := script[1..];
        o := RequestProcessed(1, reply.more);
    }

    // external_hd_interrupt
    method OnInterrupt(count: nat, more: seq<Request>) returns (o: Outcome<()>)
      requires Valid() && available < MAX_OPERATIONS && !idle
      modifies this, operations
      ensures
        match Interrupt(old(View()), count, more)
        case Done(q) => o.Done? && Valid() && View() == q
        case Panic => o == Panic
        case Stopped => o == Stopped
    {
      hide Complete;
      var kind := operations[listStart].kind;
      if kind == Read || kind == Write {
        o := RequestProcessed(count, more);
      } else {
        o := Panic;
      }
    }
  }

  lemma RingPush(ops: seq<Op>, now: seq<Op>, start: nat, n: nat, op: Op)
    requires |ops| == MAX_OPERATIONS && start < MAX_OPERATIONS && n < MAX_OPERATIONS
    requires now == ops[Wrapped(start + n) := op]
    ensures Ring(now, start, n + 1) == Ring(ops, start, n) + [op]
  {
  }

  // Complete, from the state after the callback and the one after the pop.
  lemma CompleteIs(q: Queue, count: nat, more: seq<Request>, before: Queue, t: Queue)
    requires q.pending != [] && before.pending != []
    requires
      var head := q.pending[0];
      if head.callback.Some? then
        AskAll(q.(log := q.log + [Fired(head.callback.value, count + head.intermediate)]), more) == Done(before)
        && t == before.(pending := before.pending[1..], idle := true)
      else
        var rest := q.pending[1..];
        t == q.(pending := if rest == [] then [] else [rest[0].(intermediate := count + head.intermediate)] + rest[1..], idle := true)
    ensures Complete(q, count, more) == if t.pending != [] then Start(t) else Done(t)
  {
    hide Start, AskAll;
    var head := q.pending[0];
    if head.callback.None? {
      assert ([head] + t.pending)[1..] == t.pending;
    }
  }

  lemma RingPop(ops: seq<Op>, start: nat, n: nat)
    requires |ops| == MAX_OPERATIONS && start < MAX_OPERATIONS && 0 < n <= MAX_OPERATIONS
    ensures Ring(ops, Wrapped(start + 1), n - 1) == Ring(ops, start, n)[1..]
  {
  }

  // The sum goes to the slot after the finished piece.
  lemma RingCarry(ops: seq<Op>, now: seq<Op>, start: nat, n: nat, sum: nat)
    requires |ops| == MAX_OPERATIONS && start < MAX_OPERATIONS && 0 < n <= MAX_OPERATIONS
    requires
      var next := Wrapped(start + 1);
      now == ops[next := ops[next].(intermediate := sum)]
    ensures
      var rest := Ring(ops, start, n)[1..];
      Ring(now, Wrapped(start + 1), n - 1) == if rest == [] then [] else [rest[0].(intermediate := sum)] + rest[1..]
  {
  }

  lemma OnePiece(q: Queue, r: Request)
    requires !Deferred(r.kind)
    ensures EnqueueAll(q, Expand(r)) == Enqueue(q, Op(r.kind, 0, 0, 0, Some(r.callback)))
  {
    hide Enqueue;
    var ops := Expand(r);
    var u := Enqueue(q, ops[0]);
    assert ops[1..] == [];
    if u.Done? { assert EnqueueAll(u.value, ops[1..]) == u; }
  }

  lemma LastOfPieces(q: Queue, r: Request, done: nat)
    requires done <= r.len <= done + SECTOR
    ensures EnqueueAll(q, Pieces(r, done)) == Enqueue(q, Op(r.kind, r.len - done, done, 0, Some(r.callback)))
  {
    hide Enqueue;
    var ops := Pieces(r, done);
    var u := Enqueue(q, ops[0]);
    assert ops[1..] == [];
    if u.Done? { assert EnqueueAll(u.value, ops[1..]) == u; }
  }
}
