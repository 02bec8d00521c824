// The barrier at the end of each simulated cycle, src/main.cpp.  Everything a
// thread does while it holds the mutex is one step.
module Barrier {
  // AtHead: at the loop condition.  Waiting: in pthread_cond_wait.  Woken:
  // signalled, but without the mutex yet.
  datatype Place = AtHead | Working | Waiting | Woken | Exited

  datatype Event = Started(thread: nat, cycle: nat) | Finished(thread: nat, cycle: nat) | IoCycle(cycle: nat)

  datatype State = State(
    places: seq<Place>,
    done: seq<nat>,        // cycles each thread has completed
    finished: nat,         // processors_finished_cycle
    cycle: nat,            // system_cycle
    running: bool,
    log: seq<Event>
  )

  predicate Wf(s: State) {
    |s.places| == |s.done| > 0
  }

  function CountWaiting(p: seq<Place>): (n: nat)
    ensures n <= |p|
  {
    if p == [] then 0 else (if p[0] == Waiting then 1 else 0) + CountWaiting(p[1..])
  }

  // pthread_cond_broadcast, without spurious wakeups
  function Broadcast(p: seq<Place>): (r: seq<Place>)
    ensures |r| == |p|
    ensures forall i :: 0 <= i < |p| ==> r[i] == if p[i] == Waiting then Woken else p[i]
  {
    seq(|p|, i requires 0 <= i < |p| => if p[i] == Waiting then Woken else p[i])
  }

  datatype Step = Check(thread: nat) | EndCycle(thread: nat) | Wake(thread: nat) | Stop

  predicate Enabled(s: State, step: Step)
    requires Wf(s)
  {
    match step
    case Check(t) => t < |s.places| && s.places[t] == AtHead
    case EndCycle(t) => t < |s.places| && s.places[t] == Working
    case Wake(t) => t < |s.places| && s.places[t] == Woken
    case Stop => true
  }

  function Ended(s: State, t: nat): (r: State)
    requires Wf(s) && t < |s.places|
    ensures Wf(r)
  {
    var f := s.(done := s.done[t := s.done[t] + 1], log := s.log + [Finished(t, s.done[t])]);
    if s.finished + 1 == |s.places| then
      f.(finished := 0, cycle := s.cycle + 1, places := Broadcast(s.places)[t := AtHead], log := f.log + [IoCycle(s.cycle)])
    else f.(finished := s.finished + 1, places := s.places[t := Waiting])
  }

  function Next(s: State, step: Step): (r: State)
    requires Wf(s) && Enabled(s, step)
    ensures Wf(r)
  {
    match step
    case Check(t) =>
      if s.running then s.(places := s.places[t := Working], log := s.log + [Started(t, s.done[t])])
      else s.(places := s.places[t := Exited])
    case EndCycle(t) => Ended(s, t)
    case Wake(t) => s.(places := s.places[t := AtHead])
    case Stop => s.(running := false)
  }

  predicate Initial(s: State) {
    && Wf(s) && s.finished == 0 && s.cycle == 0 && s.log == []
    && forall t :: 0 <= t < |s.places| ==> s.places[t] == AtHead && s.done[t] == 0
  }

  // ---- the invariant ----

  ghost predicate ThreadOk(s: State, t: nat)
    requires Wf(s) && t < |s.places|
  {
    s.done[t] == if s.places[t] == Waiting then s.cycle + 1 else s.cycle
  }

  // Events come in the order the barrier is for.
  ghost predicate EventOk(s: State, p: nat)
    requires Wf(s) && p < |s.log|
  {
    match s.log[p]
    case Started(t, k) => t < |s.places| && (k > 0 ==> IoCycle(k - 1) in s.log[..p])
    case Finished(t, k) => t < |s.places| && k < s.done[t]
    case IoCycle(k) =>
      && k < s.cycle && IoCycle(k) !in s.log[..p]
      && forall t: nat :: t < |s.places| ==> Finished(t, k) in s.log[..p]
  }

  ghost predicate Inv(s: State) {
    && Wf(s) && s.finished == CountWaiting(s.places) && s.finished < |s.places|
    && (forall t :: 0 <= t < |s.places| ==> ThreadOk(s, t))
    && (forall p :: 0 <= p < |s.log| ==> EventOk(s, p))
    && (forall k :: 0 <= k < s.cycle ==> IoCycle(k) in s.log)
    && (forall t: nat, k: nat :: t < |s.places| && k < s.done[t] ==> Finished(t, k) in s.log)
  }

  lemma {:induction false} CountSplit(p: seq<Place>, t: nat, x: Place)
    requires t < |p|
    ensures CountWaiting(p[t := x]) + (if p[t] == Waiting then 1 else 0) == CountWaiting(p) + (if x == Waiting then 1 else 0)
  {
    if t > 0 {
      CountSplit(p[1..], t - 1, x);
      assert p[t := x][1..] == p[1..][t - 1 := x];
    } else {
      assert p[t := x][1..] == p[1..];
    }
  }

  lemma {:induction false} AllWaiting(p: seq<Place>)
    requires CountWaiting(p) == |p|
    ensures forall i :: 0 <= i < |p| ==> p[i] == Waiting
  {
    if p != [] { AllWaiting(p[1..]); }
  }

  // The last thread to finish finds all others waiting.
  lemma OthersWait(p: seq<Place>, t: nat)
    requires t < |p| && p[t] != Waiting && CountWaiting(p) + 1 == |p|
    ensures forall i :: 0 <= i < |p| && i != t ==> p[i] == Waiting
  {
    CountSplit(p, t, Waiting);
    AllWaiting(p[t := Waiting]);
    assert forall i :: 0 <= i < |p| && i != t ==> p[t := Waiting][i] == p[i];
  }

  lemma {:induction false} NoneWaiting(p: seq<Place>)
    requires forall i :: 0 <= i < |p| ==> p[i] != Waiting
    ensures CountWaiting(p) == 0
  {
    if p != [] { NoneWaiting(p[1..]); }
  }

  // What the log says about earlier events does not change when it grows.
  lemma LogGrows(s: State, r: State, p: nat)
    requires Wf(s) && Wf(r) && p < |s.log| && EventOk(s, p)
    requires |r.places| == |s.places| && s.cycle <= r.cycle && s.log <= r.log
    requires forall t :: 0 <= t < |s.done| ==> s.done[t] <= r.done[t]
    ensures p < |r.log| && EventOk(r, p)
  {
    assert r.log[..p] == s.log[..p];
  }

  lemma EndedCounts(s: State, t: nat)
    requires Inv(s) && t < |s.places| && s.places[t] == Working
    ensures Ended(s, t).finished == CountWaiting(Ended(s, t).places) && Ended(s, t).finished < |s.places|
    ensures forall u :: 0 <= u < |s.places| ==> ThreadOk(Ended(s, t), u)
  {
    var r := Ended(s, t);
    if s.finished + 1 == |s.places| {
      OthersWait(s.places, t);
      NoneWaiting(r.places);
    } else {
      CountSplit(s.places, t, Waiting);
    }
    forall u | 0 <= u < |s.places|
      ensures ThreadOk(r, u)
    {
      assert ThreadOk(s, u);
    }
  }

  lemma EndedLog(s: State, t: nat)
    requires Inv(s) && t < |s.places| && s.places[t] == Working
    ensures
      var r := Ended(s, t);
      && (forall u: nat, k: nat :: u < |r.places| && k < r.done[u] ==> Finished(u, k) in r.log)
      && (forall k :: 0 <= k < r.cycle ==> IoCycle(k) in r.log)
      && (forall p :: 0 <= p < |r.log| ==> EventOk(r, p))
  {
    var r := Ended(s, t);
    var f := s.log + [Finished(t, s.done[t])];
    assert s.log <= f <= r.log;
    forall u: nat, k: nat | u < |r.places| && k < r.done[u]
      ensures Finished(u, k) in f
    {
      if u == t && k == s.done[t] {
        assert f[|s.log|] == Finished(u, k);
      } else {
        assert Finished(u, k) in s.log;
      }
    }
    forall p | 0 <= p < |r.log|
      ensures EventOk(r, p)
    {
      if p < |s.log| {
        LogGrows(s, r, p);
      } else if p > |s.log| {
        assert r.log[..p] == f && r.log[p] == IoCycle(s.cycle);
        OthersWait(s.places, t);
        forall u: nat | u < |r.places|
          ensures s.cycle < r.done[u]
        {
          assert ThreadOk(s, u);
        }
        IoNotYet(s, t);
      }
    }
    if r.cycle > s.cycle { assert r.log[|s.log| + 1] == IoCycle(s.cycle); }
  }

  lemma IoNotYet(s: State, t: nat)
    requires Inv(s) && t < |s.places|
    ensures IoCycle(s.cycle) !in s.log + [Finished(t, s.done[t])]
  {
    forall p | 0 <= p < |s.log|
      ensures s.log[p] != IoCycle(s.cycle)
    {
      assert EventOk(s, p);
    }
  }

  lemma CheckKeepsInv(s: State, t: nat)
    requires Inv(s) && Enabled(s, Check(t))
    ensures Inv(Next(s, Check(t)))
  {
    var r := Next(s, Check(t));
    CountSplit(s.places, t, if s.running then Working else Exited);
    forall u | 0 <= u < |s.places|
      ensures ThreadOk(r, u)
    {
      assert ThreadOk(s, u);
    }
    assert ThreadOk(s, t);
    assert s.log <= r.log;
    forall p | 0 <= p < |r.log|
      ensures EventOk(r, p)
    {
      if p < |s.log| {
        LogGrows(s, r, p);
      } else {
        assert r.log[..p] == s.log;
      }
    }
  }

  lemma StepKeepsInv(s: State, step: Step)
    requires Inv(s) && Enabled(s, step)
    ensures Inv(Next(s, step))
  {
    match step
    case Check(t) => CheckKeepsInv(s, t);
    case EndCycle(t) =>
      EndedCounts(s, t);
      EndedLog(s, t);
    case Wake(t) =>
      CountSplit(s.places, t, AtHead);
      QuietKeepsInv(s, Next(s, step));
    case Stop => QuietKeepsInv(s, Next(s, step));
  }

  lemma QuietKeepsInv(s: State, r: State)
    requires Inv(s) && Wf(r) && r.done == s.done && r.cycle == s.cycle && r.log == s.log && r.finished == s.finished
    requires |r.places| == |s.places| && CountWaiting(r.places) == s.finished
    requires forall t :: 0 <= t < |s.places| ==> (r.places[t] == Waiting <==> s.places[t] == Waiting)
    ensures Inv(r)
  {
    forall u | 0 <= u < |s.places|
      ensures ThreadOk(r, u)
    {
      assert ThreadOk(s, u);
    }
    forall p | 0 <= p < |r.log|
      ensures EventOk(r, p)
    {
      LogGrows(s, r, p);
    }
  }

  // ---- all interleavings ----

  ghost predicate Run(s: State, steps: seq<Step>, r: State)
    requires Wf(s)
    decreases |steps|
  {
    if steps == [] then r == s else Enabled(s, steps[0]) && Run(Next(s, steps[0]), steps[1..], r)
  }

  lemma {:induction false} RunKeepsInv(s: State, steps: seq<Step>, r: State)
    requires Inv(s) && Run(s, steps, r)
    ensures Inv(r)
    decreases |steps|
  {
    if steps != [] {
      StepKeepsInv(s, steps[0]);
      RunKeepsInv(Next(s, steps[0]), steps[1..], r);
    }
  }

  lemma InitialInv(s: State)
    requires Initial(s)
    ensures Inv(s)
  {
    NoneWaiting(s.places);
  }

  // No thread is more than one cycle ahead of another.
  lemma WithinOneCycle(s: State, steps: seq<Step>, r: State, t: nat, u: nat)
    requires Initial(s) && Run(s, steps, r) && t < |r.done| && u < |r.done|
    ensures |r.places| == |r.done| && r.done[t] <= r.done[u] + 1 && r.done[u] <= r.done[t] + 1
    ensures r.cycle <= r.done[t] <= r.cycle + 1
  {
    InitialInv(s);
    RunKeepsInv(s, steps, r);
    assert ThreadOk(r, t) && ThreadOk(r, u);
  }

  lemma IoNotTwice(s: State, p: nat, q: nat)
    requires Wf(s) && p < q < |s.log| && EventOk(s, q) && s.log[q].IoCycle?
    ensures s.log[p] != s.log[q]
  {
    assert s.log[..q][p] == s.log[p];
  }

  // The devices get exactly one cycle for each cycle all threads completed,
  // after the last of them finished it and before any starts the next.
  lemma IoOncePerCycle(s: State, steps: seq<Step>, r: State, p: nat)
    requires Initial(s) && Run(s, steps, r) && p < |r.log| && r.log[p].IoCycle?
    ensures
      var k := r.log[p].cycle;
      && (forall q :: 0 <= q < |r.log| && r.log[q] == IoCycle(k) ==> q == p)
      && (forall t: nat :: t < |r.places| ==> Finished(t, k) in r.log[..p])
      && (forall q :: 0 <= q < |r.log| && r.log[q].Started? && r.log[q].cycle == k + 1 ==> p < q)
      && k < r.cycle
  {
    InitialInv(s);
    RunKeepsInv(s, steps, r);
    var k := r.log[p].cycle;
    assert EventOk(r, p);
    forall q | 0 <= q < |r.log| && r.log[q] == IoCycle(k)
      ensures q == p
    {
      assert EventOk(r, q);
      if q < p { IoNotTwice(r, q, p); } else if p < q { IoNotTwice(r, p, q); }
    }
    forall q | 0 <= q < |r.log| && r.log[q].Started? && r.log[q].cycle == k + 1
      ensures p < q
    {
      assert EventOk(r, q);
      var i :| 0 <= i < q && r.log[..q][i] == IoCycle(k);
      assert r.log[i] == IoCycle(k);
    }
  }

  lemma IoForEveryCycle(s: State, steps: seq<Step>, r: State, k: nat)
    requires Initial(s) && Run(s, steps, r)
    ensures IoCycle(k) in r.log <==> k < r.cycle
    ensures k < r.cycle <==> forall t :: 0 <= t < |r.done| ==> k < r.done[t]
  {
    InitialInv(s);
    RunKeepsInv(s, steps, r);
    if IoCycle(k) in r.log {
      var p :| 0 <= p < |r.log| && r.log[p] == IoCycle(k);
      assert EventOk(r, p);
    }
    forall t | 0 <= t < |r.done|
      ensures r.cycle <= r.done[t]
    {
      assert ThreadOk(r, t);
    }
    if k >= r.cycle {
      SomeoneNotWaiting(r.places);
      var t :| 0 <= t < |r.places| && r.places[t] != Waiting;
      assert ThreadOk(r, t) && !(k < r.done[t]);
    }
  }

  lemma {:induction false} SomeoneNotWaiting(p: seq<Place>)
    requires CountWaiting(p) < |p|
    ensures exists t :: 0 <= t < |p| && p[t] != Waiting
  {
    if p[0] == Waiting {
      SomeoneNotWaiting(p[1..]);
      var t :| 0 <= t < |p[1..]| && p[1..][t] != Waiting;
      assert p[t + 1] != Waiting;
    }
  }

  // ---- the code ----

  class Cycle {
    const places: array<Place>
    const done: array<nat>
    var finished: nat
    var cycle: nat
    var running: bool
    var log: seq<Event>

    ghost predicate Valid()
      reads this, places, done
    {
      Wf(View())
    }

    ghost function View(): State
      reads this, places, done
    {
      State(places[..], done[..], finished, cycle, running, log)
    }

    // The end of the loop body of cpu_thread_handler, with the mutex held up to
    // the wait or to the end.
    method EndOfCycle(t: nat)
      requires Valid() && t < places.Length
      modifies this, places, done
      ensures Valid() && View() == Ended(old(View()), t)
    {
      log := log + [Finished(t, done[t])];
      done[t] := done[t] + 1;
      finished := finished + 1;
      if finished == places.Length {
        finished := 0;
        cycle := cycle + 1;
        if places.Length > 1 {
          WakeAll();
        } else {
          assert t == 0;
        }
        places[t] := AtHead;
        log := log + [IoCycle(cycle - 1)];
      } else {
        places[t] := Waiting;
      }
    }

    method WakeAll()
      requires Valid()
      modifies places
      ensures places[..] == Broadcast(old(places[..]))
    {
      var i := 0;
      while i < places.Length
        invariant i <= places.Length
        invariant forall j :: 0 <= j < places.Length ==>
          places[j] == if j < i && old(places[j]) == Waiting then Woken else old(places[j])
      {
        if places[i] == Waiting { places[i] := Woken; }
        i := i + 1;
      }
    }
  }
}
