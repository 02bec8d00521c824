// The scheduler and the context switch of the kernel, for one CPU and one
// thread per process: process.c and interrupt2.c.
module Scheduler {
  const REGISTERS: nat := 16
  const RSP: nat := 4

  datatype Status =
    | Empty | Ready | Running
    | BlockedKeyboard | BlockedOpen | BlockedRead | BlockedWrite | BlockedClose

  predicate Blocked(s: Status) {
    s != Empty && s != Ready && s != Running
  }

  datatype Context = Context(gpr: seq<nat>, rip: nat, rflags: nat)

  // A slot of the process table with its one thread.
  datatype Slot = Slot(occupied: bool, status: Status, context: Context)

  // idle: the slot of the idle process.  active: the thread recorded as the
  // one on the CPU.  last: the slot scheduled last.  saved: the registers the
  // entry code stored and the exit code will load.
  datatype Kernel = Kernel(slots: seq<Slot>, idle: nat, active: nat, last: nat, saved: Context)

  predicate ContextOk(c: Context) {
    |c.gpr| == REGISTERS
  }

  predicate Wf(k: Kernel) {
    && k.idle < |k.slots| && k.active < |k.slots| && k.last < |k.slots| && ContextOk(k.saved)
    && forall i :: 0 <= i < |k.slots| ==> ContextOk(k.slots[i].context)
  }

  function WithRegister(c: Context, reg: nat, v: nat): (r: Context)
    requires ContextOk(c) && reg < REGISTERS
    ensures ContextOk(r)
  {
    c.(gpr := c.gpr[reg := v])
  }

  // ---- what the kernel does between entry and exit ----

  // interrupt_happened, with the registers the entry code captured
  function Entered(k: Kernel, captured: Context): (r: Kernel)
    requires Wf(k) && ContextOk(captured)
    ensures Wf(r)
  {
    k.(saved := captured, slots := k.slots[k.active := k.slots[k.active].(status := Ready, context := captured)])
  }

  // process_save_syscall_response
  function Responded(k: Kernel, t: nat, reg: nat, v: nat): (r: Kernel)
    requires Wf(k) && t < |k.slots| && reg < REGISTERS
    ensures Wf(r)
  {
    k.(slots := k.slots[t := k.slots[t].(context := WithRegister(k.slots[t].context, reg, v))],
       saved := if k.active == t then WithRegister(k.saved, reg, v) else k.saved)
  }

  function WithStatus(k: Kernel, t: nat, s: Status): (r: Kernel)
    requires Wf(k) && t < |k.slots|
    ensures Wf(r)
  {
    k.(slots := k.slots[t := k.slots[t].(status := s)])
  }

  // process_allocate_thread: the loop that should clear the registers writes
  // register 0 every time.
  function Launched(c: Context, rip: nat, stack: nat): (r: Context)
    requires ContextOk(c)
    ensures ContextOk(r)
  {
    Context(c.gpr[0 := 0][11 := 0x200][RSP := stack], rip, 0)
  }

  datatype Action =
    | Respond(thread: nat, reg: nat, value: nat)
    | Block(status: Status)
    | Unblock(thread: nat)
    | Kill
    | Allocate(slot: nat)
    | Launch(thread: nat, rip: nat, stack: nat)
    | Fork(child: nat)

  // What each action may be applied to.  The idle process is never killed, and
  // only a free slot is allocated.
  ghost predicate Allowed(k: Kernel, a: Action)
    requires Wf(k)
  {
    match a
    case Respond(t, reg, v) => t < |k.slots| && reg < REGISTERS
    case Block(s) => Blocked(s) && k.active != k.idle && k.slots[k.active].status == Ready
    case Unblock(t) => t < |k.slots| && Blocked(k.slots[t].status)
    case Kill => k.active != k.idle
    case Allocate(s) => s < |k.slots| && !k.slots[s].occupied && s != k.active
    case Launch(t, rip, stack) => t < |k.slots| && k.slots[t].occupied && k.slots[t].status == Empty && t != k.active
    case Fork(c) => c < |k.slots| && k.slots[c].occupied && k.slots[c].status == Empty && c != k.active
                    && k.slots[k.active].status == Ready
  }

  function Do(k: Kernel, a: Action): (r: Kernel)
    requires Wf(k) && Allowed(k, a)
    ensures Wf(r)
  {
    match a
    case Respond(t, reg, v) => Responded(k, t, reg, v)
    case Block(s) => WithStatus(k, k.active, s)
    case Unblock(t) => WithStatus(k, t, Ready)
    case Kill => k.(slots := k.slots[k.active := k.slots[k.active].(occupied := false)])
    case Allocate(s) => k.(slots := k.slots[s := k.slots[s].(occupied := true, status := Empty)])
    case Launch(t, rip, stack) =>
      k.(slots := k.slots[t := k.slots[t].(status := Ready, context := Launched(k.slots[t].context, rip, stack))])
    case Fork(c) => k.(slots := k.slots[c := k.slots[k.active].(occupied := true)])
  }

  // ---- scheduling ----

  predicate Eligible(k: Kernel, i: nat)
    requires i < |k.slots|
  {
    k.slots[i].occupied && k.slots[i].status == Ready && i != k.idle
  }

  // process_scheduler_schedule looks at `left` slots in cyclic order from p.
  function PickFrom(k: Kernel, p: nat, left: nat): (r: nat)
    requires Wf(k) && p <= |k.slots|
    ensures r < |k.slots|
    decreases left
  {
    if left == 0 then k.idle
    else
      var q := if p == |k.slots| then 0 else p;
      if Eligible(k, q) then q else PickFrom(k, q + 1, left - 1)
  }

  function Pick(k: Kernel): (r: nat)
    requires Wf(k)
    ensures r < |k.slots|
  {
    PickFrom(k, k.last + 1, |k.slots|)
  }

  // process_schedule_thread; the context is loaded only when the thread is not
  // the recorded one.
  function Scheduled(k: Kernel, t: nat): (r: Kernel)
    requires Wf(k) && t < |k.slots|
    ensures Wf(r)
  {
    k.(slots := k.slots[t := k.slots[t].(status := Running)], last := t, active := t,
       saved := if k.active != t then k.slots[t].context else k.saved)
  }

  // How the kernel is left: through the scheduler, or, when a key unblocked a
  // thread, straight to that thread.
  datatype Exit = BySchedule | Directly(thread: nat)

  datatype Event = Event(captured: Context, actions: seq<Action>, exit: Exit)

  ghost predicate AllAllowed(k: Kernel, actions: seq<Action>)
    requires Wf(k)
    decreases |actions|
  {
    actions == [] || (Allowed(k, actions[0]) && AllAllowed(Do(k, actions[0]), actions[1..]))
  }

  ghost function DoAll(k: Kernel, actions: seq<Action>): (r: Kernel)
    requires Wf(k) && AllAllowed(k, actions)
    ensures Wf(r)
    decreases |actions|
  {
    if actions == [] then k else DoAll(Do(k, actions[0]), actions[1..])
  }

  ghost predicate Possible(k: Kernel, e: Event)
    requires Wf(k)
  {
    && ContextOk(e.captured) && AllAllowed(Entered(k, e.captured), e.actions)
    && (e.exit.Directly? ==>
          var m := DoAll(Entered(k, e.captured), e.actions);
          e.exit.thread < |m.slots| && Eligible(m, e.exit.thread))
  }

  // The state in which the kernel decides whom to run next.
  ghost function Deciding(k: Kernel, e: Event): (m: Kernel)
    requires Wf(k) && Possible(k, e)
    ensures Wf(m)
  {
    DoAll(Entered(k, e.captured), e.actions)
  }

  ghost function Next(k: Kernel, e: Event): (r: Kernel)
    requires Wf(k) && Possible(k, e)
    ensures Wf(r)
  {
    var m := Deciding(k, e);
    match e.exit
    case BySchedule => Scheduled(m, Pick(m))
    case Directly(t) => Scheduled(m, t)
  }

  // ---- who runs when the kernel is left ----

  ghost predicate Outside(k: Kernel)
    requires Wf(k)
  {
    && k.slots[k.active].occupied && k.slots[k.active].status == Running && k.last == k.active
    && k.slots[k.idle].occupied && k.slots[k.idle].status in {Ready, Running}
    && forall i :: 0 <= i < |k.slots| && i != k.active ==> k.slots[i].status != Running
  }

  // Inside the kernel nobody runs.
  ghost predicate Inside(k: Kernel)
    requires Wf(k)
  {
    && k.slots[k.idle].occupied && k.slots[k.idle].status == Ready
    && forall i :: 0 <= i < |k.slots| ==> k.slots[i].status != Running
  }

  lemma EnteredInside(k: Kernel, captured: Context)
    requires Wf(k) && Outside(k) && ContextOk(captured)
    ensures Inside(Entered(k, captured))
  {
  }

  lemma {:induction false} DoAllInside(k: Kernel, actions: seq<Action>)
    requires Wf(k) && Inside(k) && AllAllowed(k, actions)
    ensures
      var r := DoAll(k, actions);
      Inside(r) && r.active == k.active && r.last == k.last && r.idle == k.idle && |r.slots| == |k.slots|
    decreases |actions|
  {
    if actions != [] {
      DoAllInside(Do(k, actions[0]), actions[1..]);
    }
  }

  lemma {:induction false} PickFromIs(k: Kernel, p: nat, left: nat)
    requires Wf(k) && p <= |k.slots| && left <= |k.slots|
    ensures Eligible(k, PickFrom(k, p, left)) || PickFrom(k, p, left) == k.idle
    decreases left
  {
    if left > 0 {
      var q := if p == |k.slots| then 0 else p;
      if !Eligible(k, q) { PickFromIs(k, q + 1, left - 1); }
    }
  }

  // Whatever happened in the kernel, on exit the only running thread is the
  // recorded one, of a live process.
  lemma OnlyActiveRuns(k: Kernel, e: Event)
    requires Wf(k) && Outside(k) && Possible(k, e)
    ensures Outside(Next(k, e))
  {
    EnteredInside(k, e.captured);
    DoAllInside(Entered(k, e.captured), e.actions);
    var m := Deciding(k, e);
    PickFromIs(m, m.last + 1, |m.slots|);
  }

  // ---- registers ----

  // The registers each thread must find when it is resumed, from its own
  // history alone: what was captured at its last interrupt, with the responses
  // since then.
  ghost function ExpectAction(x: map<nat, Context>, active: nat, a: Action, before: Context): map<nat, Context>
    requires active in x && (a.Respond? ==> a.reg < REGISTERS) && ContextOk(before)
    requires forall t :: t in x ==> ContextOk(x[t])
  {
    match a
    case Respond(t, reg, v) => if t in x then x[t := WithRegister(x[t], reg, v)] else x
    case Launch(t, rip, stack) => x[t := Launched(before, rip, stack)]
    case Fork(c) => x[c := x[active]]
    case Allocate(s) => x - {s}
    case _ => x
  }

  // Slots whose thread exists.
  predicate HasThread(s: Slot) {
    s.occupied && s.status != Empty
  }

  // Inside the kernel: the records of all threads are right, and for the
  // recorded thread the saved registers as well.
  ghost predicate RegistersInside(k: Kernel, x: map<nat, Context>)
    requires Wf(k)
  {
    && (forall t :: t in x ==> ContextOk(x[t]) && t < |k.slots|)
    && k.active in x && k.saved == x[k.active] == k.slots[k.active].context
    && forall t :: 0 <= t < |k.slots| && HasThread(k.slots[t]) ==> t in x && k.slots[t].context == x[t]
  }

  // Outside, the registers of the running thread are in the CPU.
  ghost predicate RegistersOutside(k: Kernel, x: map<nat, Context>)
    requires Wf(k)
  {
    && (forall t :: t in x ==> ContextOk(x[t]) && t < |k.slots|)
    && k.active in x && k.saved == x[k.active]
    && forall t :: 0 <= t < |k.slots| && t != k.active && HasThread(k.slots[t]) ==> t in x && k.slots[t].context == x[t]
  }

  ghost function OldContext(k: Kernel, a: Action): (c: Context)
    requires Wf(k)
    ensures ContextOk(c)
  {
    if a.Launch? && a.thread < |k.slots| then k.slots[a.thread].context else k.saved
  }

  ghost function ExpectAll(k: Kernel, x: map<nat, Context>, actions: seq<Action>): map<nat, Context>
    requires Wf(k) && AllAllowed(k, actions) && RegistersInside(k, x) && Inside(k)
    decreases |actions|
  {
    if actions == [] then x
    else
      ActionKeepsRegisters(k, x, actions[0]);
      DoAllInside(k, [actions[0]]);
      ExpectAll(Do(k, actions[0]), ExpectAction(x, k.active, actions[0], OldContext(k, actions[0])), actions[1..])
  }

  lemma ActionKeepsRegisters(k: Kernel, x: map<nat, Context>, a: Action)
    requires Wf(k) && Inside(k) && Allowed(k, a) && RegistersInside(k, x)
    ensures RegistersInside(Do(k, a), ExpectAction(x, k.active, a, OldContext(k, a)))
    ensures Inside(Do(k, a))
  {
    hide Launched, WithRegister;
    ActionInside(k, a);
    match a
    case Respond(t, reg, v) => RespondKeepsRegisters(k, x, t, reg, v);
    case Launch(t, rip, stack) => LaunchKeepsRegisters(k, x, t, rip, stack);
    case Fork(c) => ForkKeepsRegisters(k, x, c);
    case Block(_) =>
    case Unblock(_) =>
    case Kill =>
    case Allocate(_) =>
  }

  lemma ActionInside(k: Kernel, a: Action)
    requires Wf(k) && Inside(k) && Allowed(k, a)
    ensures Inside(Do(k, a))
  {
    hide Launched, WithRegister, ContextOk;
  }

  lemma RespondKeepsRegisters(k: Kernel, x: map<nat, Context>, t: nat, reg: nat, v: nat)
    requires Wf(k) && Inside(k) && RegistersInside(k, x) && t < |k.slots| && reg < REGISTERS
    ensures RegistersInside(Responded(k, t, reg, v), if t in x then x[t := WithRegister(x[t], reg, v)] else x)
  {
    hide WithRegister;
  }

  lemma LaunchKeepsRegisters(k: Kernel, x: map<nat, Context>, t: nat, rip: nat, stack: nat)
    requires Wf(k) && Inside(k) && RegistersInside(k, x) && Allowed(k, Launch(t, rip, stack))
    ensures RegistersInside(Do(k, Launch(t, rip, stack)), x[t := Launched(k.slots[t].context, rip, stack)])
  {
    hide Launched;
  }

  lemma ForkKeepsRegisters(k: Kernel, x: map<nat, Context>, c: nat)
    requires Wf(k) && Inside(k) && RegistersInside(k, x) && Allowed(k, Fork(c))
    ensures RegistersInside(Do(k, Fork(c)), x[c := x[k.active]])
  {
    hide Launched, WithRegister;
  }

  lemma {:induction false} ActionsKeepRegisters(k: Kernel, x: map<nat, Context>, actions: seq<Action>)
    requires Wf(k) && Inside(k) && AllAllowed(k, actions) && RegistersInside(k, x)
    ensures RegistersInside(DoAll(k, actions), ExpectAll(k, x, actions))
    decreases |actions|
  {
    if actions != [] {
      ActionKeepsRegisters(k, x, actions[0]);
      ActionsKeepRegisters(Do(k, actions[0]), ExpectAction(x, k.active, actions[0], OldContext(k, actions[0])), actions[1..]);
    }
  }

  // What all threads must find after one pass through the kernel.
  ghost function ExpectNext(k: Kernel, x: map<nat, Context>, e: Event): map<nat, Context>
    requires Wf(k) && Outside(k) && RegistersOutside(k, x) && Possible(k, e)
  {
    EnteredRegisters(k, x, e.captured);
    ExpectAll(Entered(k, e.captured), x[k.active := e.captured], e.actions)
  }

  lemma EnteredRegisters(k: Kernel, x: map<nat, Context>, captured: Context)
    requires Wf(k) && Outside(k) && RegistersOutside(k, x) && ContextOk(captured)
    ensures Inside(Entered(k, captured)) && RegistersInside(Entered(k, captured), x[k.active := captured])
  {
  }

  // A resumed thread finds its own registers, whether its context is loaded or
  // the load is skipped because it is the recorded thread.
  lemma ResumedWithOwnRegisters(k: Kernel, x: map<nat, Context>, e: Event)
    requires Wf(k) && Outside(k) && RegistersOutside(k, x) && Possible(k, e)
    ensures
      var r, y := Next(k, e), ExpectNext(k, x, e);
      RegistersOutside(r, y) && r.active in y && r.saved == y[r.active]
  {
    hide Allowed, Do, Entered, AllAllowed, ExpectAll;
    EnteredRegisters(k, x, e.captured);
    ActionsKeepRegisters(Entered(k, e.captured), x[k.active := e.captured], e.actions);
    DoAllInside(Entered(k, e.captured), e.actions);
    var m, y := Deciding(k, e), ExpectNext(k, x, e);
    PickFromIs(m, m.last + 1, |m.slots|);
    var t := if e.exit.BySchedule? then Pick(m) else e.exit.thread;
    ScheduledRegisters(m, y, t);
  }

  lemma ScheduledRegisters(m: Kernel, y: map<nat, Context>, t: nat)
    requires Wf(m) && Inside(m) && RegistersInside(m, y) && t < |m.slots| && HasThread(m.slots[t])
    ensures RegistersOutside(Scheduled(m, t), y)
  {
  }

  // ---- any number of passes ----

  ghost predicate RunTo(k: Kernel, x: map<nat, Context>, events: seq<Event>, r: Kernel, y: map<nat, Context>)
    requires Wf(k) && Outside(k) && RegistersOutside(k, x)
    decreases |events|
  {
    if events == [] then r == k && y == x
    else
      && Possible(k, events[0])
      && (OnlyActiveRuns(k, events[0]); ResumedWithOwnRegisters(k, x, events[0]);
          RunTo(Next(k, events[0]), ExpectNext(k, x, events[0]), events[1..], r, y))
  }

  lemma {:induction false} RunsKeepRegisters(k: Kernel, x: map<nat, Context>, events: seq<Event>, r: Kernel, y: map<nat, Context>)
    requires Wf(k) && Outside(k) && RegistersOutside(k, x) && RunTo(k, x, events, r, y)
    ensures Wf(r) && Outside(r) && RegistersOutside(r, y)
    decreases |events|
  {
    hide Outside, RegistersOutside, Possible, Next, ExpectNext;
    if events != [] {
      OnlyActiveRuns(k, events[0]);
      ResumedWithOwnRegisters(k, x, events[0]);
      RunsKeepRegisters(Next(k, events[0]), ExpectNext(k, x, events[0]), events[1..], r, y);
    }
  }

  // A thread that is never interrupted, answered or replaced finds what it
  // left: nobody else's actions touch its registers.
  lemma {:induction false} OthersLeaveRegisters(k: Kernel, x: map<nat, Context>, actions: seq<Action>, t: nat)
    requires Wf(k) && Inside(k) && AllAllowed(k, actions) && RegistersInside(k, x) && t in x
    requires forall i :: 0 <= i < |actions| ==>
      match actions[i]
      case Respond(s, _, _) => s != t
      case Launch(s, _, _) => s != t
      case Fork(c) => c != t
      case Allocate(s) => s != t
      case _ => true
    ensures t in ExpectAll(k, x, actions) && ExpectAll(k, x, actions)[t] == x[t]
    decreases |actions|
  {
    if actions != [] {
      ActionKeepsRegisters(k, x, actions[0]);
      var y := ExpectAction(x, k.active, actions[0], OldContext(k, actions[0]));
      assert t in y && y[t] == x[t];
      OthersLeaveRegisters(Do(k, actions[0]), y, actions[1..], t);
    }
  }

  // ---- the same, register by register ----

  // c is `before` but for one register.
  ghost predicate OneRegister(before: Context, c: Context, reg: nat, v: nat) {
    && |c.gpr| == |before.gpr| == REGISTERS && reg < REGISTERS && c.gpr[reg] == v
    && (forall i :: 0 <= i < REGISTERS && i != reg ==> c.gpr[i] == before.gpr[i])
    && c.rip == before.rip && c.rflags == before.rflags
  }

  // A response sets one register of one thread, and the same one among the saved
  // registers if and only if that thread is the recorded one.
  lemma ResponseSetsOne(k: Kernel, t: nat, reg: nat, v: nat)
    requires Wf(k) && t < |k.slots| && reg < REGISTERS
    ensures
      var r := Responded(k, t, reg, v);
      && OneRegister(k.slots[t].context, r.slots[t].context, reg, v)
      && (if k.active == t then OneRegister(k.saved, r.saved, reg, v) else r.saved == k.saved)
      && |r.slots| == |k.slots| && r.slots[t].occupied == k.slots[t].occupied && r.slots[t].status == k.slots[t].status
      && (forall s :: 0 <= s < |k.slots| && s != t ==> r.slots[s] == k.slots[s])
      && r.active == k.active && r.last == k.last && r.idle == k.idle
  {
  }

  // A launched thread starts at rip, on its stack, with clean flags, and is ready;
  // registers 1 to 15 other than those the start sets are as the slot had them.
  lemma LaunchSets(k: Kernel, t: nat, rip: nat, stack: nat)
    requires Wf(k) && Allowed(k, Launch(t, rip, stack))
    ensures
      var r := Do(k, Launch(t, rip, stack));
      var c := r.slots[t].context;
      && c.rip == rip && c.rflags == 0 && c.gpr[4] == stack && c.gpr[11] == 0x200 && c.gpr[0] == 0
      && (forall i :: 0 < i < REGISTERS && i != 4 && i != 11 ==> c.gpr[i] == k.slots[t].context.gpr[i])
      && r.slots[t].status == Ready && r.saved == k.saved
      && forall s :: 0 <= s < |k.slots| && s != t ==> r.slots[s] == k.slots[s]
  {
  }

  // A forked thread has the registers of its parent.
  lemma ForkCopies(k: Kernel, c: nat)
    requires Wf(k) && Allowed(k, Fork(c))
    ensures
      var r := Do(k, Fork(c));
      && r.slots[c].context == k.slots[k.active].context && r.slots[c].status == Ready && r.slots[c].occupied
      && r.saved == k.saved && forall s :: 0 <= s < |k.slots| && s != c ==> r.slots[s] == k.slots[s]
  {
  }

  // The last value some actions give to a register of a thread, or else v.
  function LastResponse(actions: seq<Action>, t: nat, reg: nat, v: nat): nat
    decreases |actions|
  {
    if actions == [] then v
    else
      var a := actions[0];
      LastResponse(actions[1..], t, reg, if a.Respond? && a.thread == t && a.reg == reg then a.value else v)
  }

  lemma {:induction false} LastResponseConcat(a: seq<Action>, b: seq<Action>, t: nat, reg: nat, v: nat)
    ensures LastResponse(a + b, t, reg, v) == LastResponse(b, t, reg, LastResponse(a, t, reg, v))
    decreases |a|
  {
    if a == [] {
      assert a + b == b;
    } else {
      assert (a + b)[1..] == a[1..] + b;
      var w := if a[0].Respond? && a[0].thread == t && a[0].reg == reg then a[0].value else v;
      LastResponseConcat(a[1..], b, t, reg, w);
    }
  }

  // No action puts another thread into the slot.
  ghost predicate Spared(actions: seq<Action>, t: nat) {
    forall i :: 0 <= i < |actions| ==>
      actions[i] != Allocate(t) && actions[i] != Fork(t) && !(actions[i].Launch? && actions[i].thread == t)
  }

  // What is left of registers c of thread t after some actions: nothing but the
  // last responses to it.
  ghost predicate OnlyResponses(c: Context, actions: seq<Action>, t: nat, r: Context) {
    && |c.gpr| == |r.gpr| == REGISTERS && r.rip == c.rip && r.rflags == c.rflags
    && forall reg :: 0 <= reg < REGISTERS ==> r.gpr[reg] == LastResponse(actions, t, reg, c.gpr[reg])
  }

  lemma OneActionResponds(x: map<nat, Context>, active: nat, a: Action, before: Context, t: nat)
    requires active in x && (a.Respond? ==> a.reg < REGISTERS) && ContextOk(before) && t in x
    requires (forall s :: s in x ==> ContextOk(x[s])) && Spared([a], t)
    ensures t in ExpectAction(x, active, a, before) && OnlyResponses(x[t], [a], t, ExpectAction(x, active, a, before)[t])
  {
    assert [a][0] == a && [a][1..] == [];
    forall reg | 0 <= reg < REGISTERS
      ensures
        LastResponse([a], t, reg, x[t].gpr[reg]) == if a.Respond? && a.thread == t && a.reg == reg then a.value else x[t].gpr[reg]
    {
    }
  }

  lemma OnlyResponsesTwice(c: Context, a: seq<Action>, m: Context, b: seq<Action>, r: Context, t: nat)
    requires OnlyResponses(c, a, t, m) && OnlyResponses(m, b, t, r)
    ensures OnlyResponses(c, a + b, t, r)
  {
    forall reg | 0 <= reg < REGISTERS
      ensures r.gpr[reg] == LastResponse(a + b, t, reg, c.gpr[reg])
    {
      LastResponseConcat(a, b, t, reg, c.gpr[reg]);
    }
  }

  lemma {:induction false} ActionsRespond(k: Kernel, x: map<nat, Context>, actions: seq<Action>, t: nat)
    requires Wf(k) && Inside(k) && AllAllowed(k, actions) && RegistersInside(k, x) && t in x && Spared(actions, t)
    ensures t in ExpectAll(k, x, actions) && OnlyResponses(x[t], actions, t, ExpectAll(k, x, actions)[t])
    decreases |actions|
  {
    hide OnlyResponses, ExpectAction;
    if actions == [] {
      NoResponses(x[t], t);
    } else {
      var a, rest := actions[0], actions[1..];
      ActionKeepsRegisters(k, x, a);
      var y := ExpectAction(x, k.active, a, OldContext(k, a));
      assert Spared([a], t) && Spared(rest, t) by { assert forall i :: 0 <= i < |rest| ==> rest[i] == actions[i + 1]; }
      OneActionResponds(x, k.active, a, OldContext(k, a), t);
      ActionsRespond(Do(k, a), y, rest, t);
      OnlyResponsesTwice(x[t], [a], y[t], rest, ExpectAll(Do(k, a), y, rest)[t], t);
      assert [a] + rest == actions;
    }
  }

  lemma NoResponses(c: Context, t: nat)
    requires ContextOk(c)
    ensures OnlyResponses(c, [], t, c)
  {
  }

  function AllActions(events: seq<Event>): seq<Action> {
    if events == [] then [] else events[0].actions + AllActions(events[1..])
  }

  // Thread t does not run while these interrupts happen.
  ghost predicate Away(k: Kernel, events: seq<Event>, t: nat)
    requires Wf(k)
    decreases |events|
  {
    events == [] || (k.active != t && Possible(k, events[0]) && Away(Next(k, events[0]), events[1..], t))
  }

  lemma {:induction false} AwayKeepsRegisters(k: Kernel, x: map<nat, Context>, events: seq<Event>, r: Kernel, y: map<nat, Context>, t: nat)
    requires Wf(k) && Outside(k) && RegistersOutside(k, x) && RunTo(k, x, events, r, y) && t in x
    requires Away(k, events, t) && Spared(AllActions(events), t)
    ensures t in y && OnlyResponses(x[t], AllActions(events), t, y[t])
    decreases |events|
  {
    hide Outside, RegistersOutside, Possible, Next, OnlyResponses, Spared;
    if events == [] {
      assert ContextOk(x[t]) by { ExpectedOk(k, x, t); }
      NoResponses(x[t], t);
    } else {
      var e := events[0];
      OnlyActiveRuns(k, e);
      ResumedWithOwnRegisters(k, x, e);
      SparedParts(e.actions, AllActions(events[1..]), t);
      PassResponds(k, x, e, t);
      AwayKeepsRegisters(Next(k, e), ExpectNext(k, x, e), events[1..], r, y, t);
      OnlyResponsesTwice(x[t], e.actions, ExpectNext(k, x, e)[t], AllActions(events[1..]), y[t], t);
    }
  }

  lemma ExpectedOk(k: Kernel, x: map<nat, Context>, t: nat)
    requires Wf(k) && RegistersOutside(k, x) && t in x
    ensures ContextOk(x[t])
  {
  }

  lemma SparedParts(a: seq<Action>, b: seq<Action>, t: nat)
    requires Spared(a + b, t)
    ensures Spared(a, t) && Spared(b, t)
  {
    assert forall i :: 0 <= i < |a| ==> (a + b)[i] == a[i];
    assert forall i :: 0 <= i < |b| ==> (a + b)[|a| + i] == b[i];
  }

  // One pass through the kernel, for the interrupted thread and for the others.
  lemma PassResponds(k: Kernel, x: map<nat, Context>, e: Event, t: nat)
    requires Wf(k) && Outside(k) && RegistersOutside(k, x) && Possible(k, e) && t in x && Spared(e.actions, t)
    ensures t in ExpectNext(k, x, e)
    ensures OnlyResponses(if t == k.active then e.captured else x[t], e.actions, t, ExpectNext(k, x, e)[t])
  {
    hide OnlyResponses, AllAllowed, Spared;
    EnteredRegisters(k, x, e.captured);
    ActionsRespond(Entered(k, e.captured), x[k.active := e.captured], e.actions, t);
  }

  // A resumed thread finds every register as it was captured at its last
  // interrupt, but for those it got a response in since then, which hold the
  // last response: however many other interrupts, system calls and processes
  // came between.
  lemma ResumedRegisters(k: Kernel, x: map<nat, Context>, events: seq<Event>, r: Kernel, y: map<nat, Context>)
    requires Wf(k) && Outside(k) && RegistersOutside(k, x) && events != [] && RunTo(k, x, events, r, y)
    requires Possible(k, events[0]) && Away(Next(k, events[0]), events[1..], k.active) && Spared(AllActions(events), k.active)
    requires Wf(r) && r.active == k.active
    ensures OnlyResponses(events[0].captured, AllActions(events), k.active, r.saved)
  {
    hide OnlyResponses, Spared, Away, Possible, Next;
    var e, t := events[0], k.active;
    OnlyActiveRuns(k, e);
    ResumedWithOwnRegisters(k, x, e);
    SparedParts(e.actions, AllActions(events[1..]), t);
    PassResponds(k, x, e, t);
    AwayKeepsRegisters(Next(k, e), ExpectNext(k, x, e), events[1..], r, y, t);
    OnlyResponsesTwice(e.captured, e.actions, ExpectNext(k, x, e)[t], AllActions(events[1..]), y[t], t);
    RunsKeepRegisters(k, x, events, r, y);
  }

  // ---- who is ready ----

  // The last actions on slot t decide whether a process is in it, and what its
  // thread does: blocked by its own system call, unblocked, started or forked.
  function LastStatus(actions: seq<Action>, active: nat, t: nat, s: Status): Status
    decreases |actions|
  {
    if actions == [] then s
    else
      var n, a := |actions| - 1, actions[|actions| - 1];
      if a.Block? && t == active then a.status
      else if (a.Unblock? && a.thread == t) || (a.Launch? && a.thread == t) || (a.Fork? && a.child == t) then Ready
      else if a.Allocate? && a.slot == t then Empty
      else LastStatus(actions[..n], active, t, s)
  }

  function LastOccupied(actions: seq<Action>, active: nat, t: nat, occupied: bool): bool
    decreases |actions|
  {
    if actions == [] then occupied
    else
      var n, a := |actions| - 1, actions[|actions| - 1];
      if a.Kill? && t == active then false
      else if (a.Allocate? && a.slot == t) || (a.Fork? && a.child == t) then true
      else LastOccupied(actions[..n], active, t, occupied)
  }

  lemma {:induction false} DoAllSplit(k: Kernel, actions: seq<Action>)
    requires Wf(k) && AllAllowed(k, actions) && actions != []
    ensures
      var n := |actions| - 1;
      && AllAllowed(k, actions[..n]) && Allowed(DoAll(k, actions[..n]), actions[n])
      && DoAll(k, actions) == Do(DoAll(k, actions[..n]), actions[n])
    decreases |actions|
  {
    hide Allowed, Do, Wf;
    var n := |actions| - 1;
    if n == 0 {
      assert actions[..0] == [] && actions[1..] == [];
    } else {
      DoAllSplit(Do(k, actions[0]), actions[1..]);
      assert actions[1..][..n - 1] == actions[..n][1..] && actions[1..][n - 1] == actions[n];
    }
  }

  lemma {:induction false} ActionsDecide(k: Kernel, actions: seq<Action>, t: nat)
    requires Wf(k) && Inside(k) && AllAllowed(k, actions) && t < |k.slots|
    ensures
      var m := DoAll(k, actions);
      && |m.slots| == |k.slots| && m.active == k.active && m.idle == k.idle
      && m.slots[t].status == LastStatus(actions, k.active, t, k.slots[t].status)
      && m.slots[t].occupied == LastOccupied(actions, k.active, t, k.slots[t].occupied)
    decreases |actions|
  {
    DoAllInside(k, actions);
    if actions != [] {
      var n := |actions| - 1;
      DoAllSplit(k, actions);
      ActionsDecide(k, actions[..n], t);
    }
  }

  // After a pass through the kernel, from an interrupt of the running thread,
  // each thread but the one that was chosen is what the last action on it made
  // it, or what it was; the interrupted one was ready.
  lemma PassDecides(k: Kernel, e: Event, t: nat)
    requires Wf(k) && Outside(k) && Possible(k, e) && t < |k.slots|
    ensures
      var r, s := Next(k, e), if t == k.active then Ready else k.slots[t].status;
      && |r.slots| == |k.slots|
      && r.slots[t].status == (if t == r.active then Running else LastStatus(e.actions, k.active, t, s))
      && r.slots[t].occupied == LastOccupied(e.actions, k.active, t, k.slots[t].occupied)
  {
    hide AllAllowed, DoAll, LastStatus, LastOccupied, Pick;
    EnteredInside(k, e.captured);
    ActionsDecide(Entered(k, e.captured), e.actions, t);
  }

  // The registers a new thread should find cleared.
  ghost predicate Cleared(c: Context, from: nat)
    requires ContextOk(c)
  {
    forall i :: from <= i < REGISTERS && i != 11 && i != RSP ==> c.gpr[i] == 0
  }

  lemma LaunchedClears(c: Context, rip: nat, stack: nat)
    requires ContextOk(c)
    ensures Cleared(Launched(c, rip, stack), 0) <==> Cleared(c, 1)
  {
    var r := Launched(c, rip, stack);
    assert forall i :: 1 <= i < REGISTERS && i != 11 && i != RSP ==> r.gpr[i] == c.gpr[i];
    assert r.gpr[0] == 0;
    if Cleared(r, 0) {
      forall i | 1 <= i < REGISTERS && i != 11 && i != RSP
        ensures c.gpr[i] == 0
      {
        assert r.gpr[i] == 0;
      }
    }
  }

  // A new thread finds them cleared exactly when the previous thread of its slot
  // left zeros there.
  lemma LaunchClears(k: Kernel, t: nat, rip: nat, stack: nat)
    requires Wf(k) && Allowed(k, Launch(t, rip, stack))
    ensures Cleared(Do(k, Launch(t, rip, stack)).slots[t].context, 0) <==> Cleared(k.slots[t].context, 1)
  {
    LaunchedClears(k.slots[t].context, rip, stack);
  }

  // ---- a run in which it did not ----

  const ZEROS: Context := Context([0, 0, 0, 0, 0, 0, 0, 0, 0, 0, 0, 0, 0, 0, 0, 0], 0, 0)
  const SEVEN: Context := Context([0, 7, 0, 0, 0, 0, 0, 0, 0, 0, 0, 0, 0, 0, 0, 0], 0, 0)

  // The idle process and one other, which is running.
  function TwoProcesses(): Kernel {
    Kernel([Slot(true, Ready, ZEROS), Slot(true, Running, ZEROS)], 0, 1, 1, ZEROS)
  }

  // It enters the kernel with 7 in a register and is killed; the idle process
  // is interrupted, and a new process gets the slot.
  function Killing(): Event {
    Event(SEVEN, [Kill], BySchedule)
  }

  function Creating(): Event {
    Event(ZEROS, [Allocate(1), Launch(1, 0, 0)], BySchedule)
  }

  function OneKilled(): Kernel {
    Kernel([Slot(true, Running, ZEROS), Slot(false, Ready, SEVEN)], 0, 0, 0, ZEROS)
  }

  function Inherited(): Context {
    Launched(SEVEN, 0, 0)
  }

  lemma KillingLeaves()
    ensures Wf(TwoProcesses()) && Outside(TwoProcesses()) && Possible(TwoProcesses(), Killing())
    ensures Next(TwoProcesses(), Killing()) == OneKilled()
  {
    var k := TwoProcesses();
    var a := Entered(k, SEVEN);
    var m := Do(a, Kill);
    assert m == Kernel([Slot(true, Ready, ZEROS), Slot(false, Ready, SEVEN)], 0, 1, 1, SEVEN);
    assert Killing().actions[1..] == [] && DoAll(a, Killing().actions) == m;
    assert PickFrom(m, 2, 2) == 0;
  }

  lemma CreatingLeaves()
    ensures Wf(OneKilled()) && Possible(OneKilled(), Creating())
    ensures
      var r := Next(OneKilled(), Creating());
      r.active == 1 && r.slots[1].status == Running && r.saved == Inherited()
  {
    var a := Entered(OneKilled(), ZEROS);
    var b := Do(a, Allocate(1));
    var m := Do(b, Launch(1, 0, 0));
    assert m.slots == [Slot(true, Ready, ZEROS), Slot(true, Ready, Inherited())];
    assert Creating().actions[1..] == [Launch(1, 0, 0)] && [Launch(1, 0, 0)][1..] == [];
    assert DoAll(b, [Launch(1, 0, 0)]) == m && DoAll(a, Creating().actions) == m;
    assert Eligible(m, 1) && PickFrom(m, 1, 2) == 1;
  }

  // The new thread runs with a register of the killed one.
  lemma RegisterInherited()
    ensures Wf(TwoProcesses()) && Outside(TwoProcesses()) && Possible(TwoProcesses(), Killing())
    ensures
      var k := Next(TwoProcesses(), Killing());
      && Possible(k, Creating())
      && var r := Next(k, Creating());
      r.active == 1 && r.slots[1].status == Running && r.saved.gpr[1] == 7 && !Cleared(r.saved, 0)
  {
    KillingLeaves();
    CreatingLeaves();
    assert Inherited().gpr[1] == 7;
  }

  // ---- bounded waiting ----

  // How far slot t is behind slot `from` in the cyclic order, from 1 to n.
  function Distance(from: nat, t: nat, n: nat): int {
    if t > from then t - from else t + n - from
  }

  // Steps from position p, where n stands for 0.
  function Offset(p: nat, t: nat, n: nat): int {
    if t >= p then t - p else t + n - p
  }

  lemma {:induction false} PickFromFirst(k: Kernel, p: nat, left: nat, t: nat)
    requires Wf(k) && p <= |k.slots| && left <= |k.slots| && t < |k.slots| && Eligible(k, t)
    requires Offset(p, t, |k.slots|) < left
    ensures
      var r := PickFrom(k, p, left);
      Eligible(k, r) && Offset(p, r, |k.slots|) <= Offset(p, t, |k.slots|)
    decreases left
  {
    var q := if p == |k.slots| then 0 else p;
    if !Eligible(k, q) {
      PickFromFirst(k, q + 1, left - 1, t);
    }
  }

  // Every scheduling that passes a ready thread over comes closer to it.
  lemma PickComesCloser(k: Kernel, t: nat)
    requires Wf(k) && t < |k.slots| && Eligible(k, t)
    ensures Eligible(k, Pick(k))
    ensures Pick(k) != t ==> Distance(Pick(k), t, |k.slots|) < Distance(k.last, t, |k.slots|)
  {
    PickFromFirst(k, k.last + 1, |k.slots|, t);
  }

  lemma {:induction false} WaitsAtMost(deciding: seq<Kernel>, t: nat, n: nat)
    requires deciding != [] && t < n
    requires forall i :: 0 <= i < |deciding| ==>
      Wf(deciding[i]) && |deciding[i].slots| == n && Eligible(deciding[i], t)
    requires forall i :: 0 <= i < |deciding| - 1 ==> deciding[i + 1].last == Pick(deciding[i])
    requires |deciding| >= Distance(deciding[0].last, t, n)
    ensures exists i :: 0 <= i < Distance(deciding[0].last, t, n) && i < |deciding| && Pick(deciding[i]) == t
    decreases |deciding|
  {
    PickComesCloser(deciding[0], t);
    if Pick(deciding[0]) != t {
      var rest := deciding[1..];
      var d := Distance(Pick(deciding[0]), t, n);
      assert d >= 1;
      assert |deciding| > 1;
      assert rest[0].last == Pick(deciding[0]);
      WaitsAtMost(rest, t, n);
      var i :| 0 <= i < d && i < |rest| && Pick(rest[i]) == t;
      assert Pick(deciding[i + 1]) == t;
    }
  }

  ghost predicate Trace(states: seq<Kernel>, events: seq<Event>) {
    && |states| == |events| + 1 && Wf(states[0]) && Outside(states[0])
    && forall i :: 0 <= i < |events| ==>
      Wf(states[i]) && Possible(states[i], events[i]) && states[i + 1] == Next(states[i], events[i])
  }

  ghost predicate WaitsAt(k: Kernel, e: Event, t: nat) {
    && Wf(k) && Possible(k, e) && e.exit.BySchedule?
    && t < |Deciding(k, e).slots| && Eligible(Deciding(k, e), t)
  }

  lemma {:induction false} TraceOutside(states: seq<Kernel>, events: seq<Event>, i: nat)
    requires Trace(states, events) && i < |states|
    ensures Wf(states[i]) && Outside(states[i]) && |states[i].slots| == |states[0].slots|
  {
    if i > 0 {
      TraceOutside(states, events, i - 1);
      OnlyActiveRuns(states[i - 1], events[i - 1]);
      EnteredInside(states[i - 1], events[i - 1].captured);
      DoAllInside(Entered(states[i - 1], events[i - 1].captured), events[i - 1].actions);
    }
  }

  ghost predicate RunsAfter(states: seq<Kernel>, i: int, t: nat) {
    0 <= i < |states| - 1 && states[i + 1].active == t
  }

  // A thread that is ready each time the scheduler is called runs after at
  // most as many calls as the table has slots.
  lemma BoundedWaiting(states: seq<Kernel>, events: seq<Event>, t: nat)
    requires Trace(states, events) && |events| >= |states[0].slots|
    requires forall i :: 0 <= i < |events| ==> WaitsAt(states[i], events[i], t)
    ensures exists i :: RunsAfter(states, i, t) && i < |states[0].slots|
  {
    var n := |states[0].slots|;
    TraceOutside(states, events, 0);
    var deciding := seq(|events|, i requires 0 <= i < |events| => Deciding(states[i], events[i]));
    forall i | 0 <= i < |events|
      ensures |deciding[i].slots| == n && deciding[i].last == states[i].last && states[i + 1].last == Pick(deciding[i]) == states[i + 1].active
    {
      TraceOutside(states, events, i);
      DecidingKeepsLast(states[i], events[i]);
      assert WaitsAt(states[i], events[i], t);
    }
    forall i | 0 <= i < |events|
      ensures Wf(deciding[i]) && Eligible(deciding[i], t)
    {
      assert WaitsAt(states[i], events[i], t);
    }
    assert t < n by { assert WaitsAt(states[0], events[0], t); }
    WaitsAtMost(deciding, t, n);
    var i :| 0 <= i < |deciding| && Pick(deciding[i]) == t && i < Distance(deciding[0].last, t, n);
    assert RunsAfter(states, i, t);
  }

  lemma DecidingKeepsLast(k: Kernel, e: Event)
    requires Wf(k) && Outside(k) && Possible(k, e)
    ensures Deciding(k, e).last == k.last && |Deciding(k, e).slots| == |k.slots|
  {
    EnteredInside(k, e.captured);
    DoAllInside(Entered(k, e.captured), e.actions);
  }

  // ---- the code ----

  class Processor {
    const table: array<Slot>
    const idle: nat
    var active: nat
    var last: nat
    // interrupt_context_saved_gpr, _rip and _rflags
    const savedGpr: array<nat>
    var savedRip: nat
    var savedRflags: nat

    ghost predicate Valid()
      reads this, table, savedGpr
    {
      savedGpr.Length == REGISTERS && Wf(View())
    }

    ghost function View(): Kernel
      reads this, table, savedGpr
    {
      Kernel(table[..], idle, active, last, Context(savedGpr[..], savedRip, savedRflags))
    }

    // process_thread_save_context
    method SaveContext(t: nat)
      requires Valid() && t < table.Length
      modifies table
      ensures Valid() && View() == old(View()).(slots := old(table[..])[t := old(table[t]).(context := View().saved)])
    {
      var i := 0;
      while i < REGISTERS
        invariant i <= REGISTERS && |table[t].context.gpr| == REGISTERS
        invariant table[t] == old(table[t]).(context := old(table[t]).context.(gpr := table[t].context.gpr))
        invariant forall j :: 0 <= j < i ==> table[t].context.gpr[j] == savedGpr[j]
        invariant forall j :: 0 <= j < table.Length && j != t ==> table[j] == old(table[j])
      {
        table[t] := table[t].(context := table[t].context.(gpr := table[t].context.gpr[i := savedGpr[i]]));
        i := i + 1;
      }
      assert table[t].context.gpr == savedGpr[..];
      table[t] := table[t].(context := table[t].context.(rip := savedRip, rflags := savedRflags));
      assert table[..] == old(table[..])[t := old(table[t]).(context := View().saved)];
    }

    // process_thread_load_context
    method LoadContext(t: nat)
      requires Valid() && t < table.Length
      modifies savedGpr, this`savedRip, this`savedRflags
      ensures Valid() && View() == old(View()).(saved := table[t].context)
    {
      var i := 0;
      while i < REGISTERS
        invariant i <= REGISTERS
        invariant forall j :: 0 <= j < i ==> savedGpr[j] == table[t].context.gpr[j]
      {
        savedGpr[i] := table[t].context.gpr[i];
        i := i + 1;
      }
      assert savedGpr[..] == table[t].context.gpr;
      savedRip := table[t].context.rip;
      savedRflags := table[t].context.rflags;
    }

    // interrupt_happened, after the entry code has stored the registers
    method InterruptHappened()
      requires Valid()
      modifies table
      ensures Valid() && View() == Entered(old(View()), old(View()).saved)
    {
      table[active] := table[active].(status := Ready);
      SaveContext(active);
    }

    // process_save_syscall_response
    method SaveResponse(t: nat, reg: nat, v: nat)
      requires Valid() && t < table.Length && reg < REGISTERS
      modifies table, savedGpr
      ensures Valid() && View() == Responded(old(View()), t, reg, v)
    {
      table[t] := table[t].(context := WithRegister(table[t].context, reg, v));
      if active == t {
        savedGpr[reg] := v;
      }
    }

    // process_schedule_thread
    method ScheduleThread(t: nat)
      requires Valid() && t < table.Length && table[t].status == Ready
      modifies this, table, savedGpr
      ensures Valid() && View() == Scheduled(old(View()), t)
    {
      table[t] := table[t].(status := Running);
      last := t;
      if active != t {
        LoadContext(t);
        active := t;
      }
    }

    // process_scheduler_schedule
    method Schedule()
      requires Valid()
      modifies this, table, savedGpr
      ensures Valid() && View() == Scheduled(old(View()), Pick(old(View())))
    {
      var p: nat, i: nat := last + 1, 0;
      while i < table.Length
        invariant i <= table.Length && p <= table.Length
        invariant Pick(View()) == PickFrom(View(), p, table.Length - i)
      {
        if p == table.Length { p := 0; }
        if table[p].occupied && table[p].status == Ready && p != idle {
          ScheduleThread(p);
          return;
        }
        p := p + 1;
        i := i + 1;
      }
      table[idle] := table[idle].(status := Ready);
      ScheduleThread(idle);
    }
  }
}
