// State of the out-of-order window: the instruction pool, the lists that hold
// its members, the functional units, and the register bank that remembers the
// producer of every register.  An instruction object is a handle into `insts`.
module PipelineState {
  import opened Common

  datatype Status = Decoding | WaitDep | DepReady | Executing | Ready

  datatype Kind =
    | NoUnit | IntArith | IntLogic | IntMul | IntDiv | Mov | Load | Store | Branch
    | FpuArith | FpuMul | FpuDiv | IoIn | IoOut

  // The reservation queue an instruction is sent to at dispatch.
  datatype Queue = NoQueue | GenericQueue | LoadStoreQueue | IoQueue

  function QueueOf(k: Kind): Queue {
    match k
    case NoUnit => NoQueue
    case Load => LoadStoreQueue
    case Store => LoadStoreQueue
    case IoIn => IoQueue
    case IoOut => IoQueue
    case _ => GenericQueue
  }

  // Stores and port operations act on the outside world, so they may only
  // execute once nothing older is in flight.
  predicate Ordered(k: Kind) {
    k == Store || QueueOf(k) == IoQueue
  }

  // One slot of dep_in/dep_out together with the matching slot of
  // dep_in_index/dep_out_index.  A null pointer is None.
  datatype Link = Link(peer: Option<nat>, back: nat)

  datatype Inst = Inst(
    cpu: nat, id: nat, status: Status, kind: Kind,
    depIn: seq<Link>, resolved: nat, depOut: seq<Link>,
    outRegs: seq<nat>,
    serial: bool,     // exception, trap, halt or pipeline-flushing instruction
    foresight: bool,  // false when the branch was mispredicted
    latency: nat)

  datatype Unit = Unit(kinds: set<Kind>, busy: Option<nat>, cycles: nat)

  datatype Event =
    | Committed(cpu: nat, id: nat)
    | Issued(cpu: nat, id: nat, kind: Kind)

  datatype State = State(
    insts: seq<Inst>,
    supplier: seq<nat>,            // unused instructions
    decoder: seq<seq<nat>>,        // per cpu: allocated, not yet dispatched
    rob: seq<nat>,                 // reorder buffer, dispatch order
    generic: seq<nat>, ls: seq<nat>, io: seq<nat>,
    genericCap: nat, lsCap: nat, ioCap: nat,
    units: seq<Unit>,
    response: seq<nat>,            // left the units, not yet written back
    regs: seq<map<nat, nat>>,      // per cpu: producer of each register, absent when none
    nextId: seq<nat>,
    writeReady: seq<bool>, mustIssue: seq<bool>,
    trace: seq<Event>)             // observation only

  ghost predicate LinksInRange(links: seq<Link>, n: nat) {
    forall i :: 0 <= i < |links| && links[i].peer.Some? ==> links[i].peer.value < n
  }

  ghost predicate AllBelow(q: seq<nat>, n: nat) {
    forall i :: 0 <= i < |q| ==> q[i] < n
  }

  // Every pointer points into the pool and every array has its declared size.
  ghost predicate InstsWf(insts: seq<Inst>, cpus: nat) {
    forall h :: 0 <= h < |insts| ==>
      insts[h].cpu < cpus && LinksInRange(insts[h].depIn, |insts|) && LinksInRange(insts[h].depOut, |insts|)
  }

  ghost predicate UnitsInRange(units: seq<Unit>, n: nat) {
    forall u :: 0 <= u < |units| && units[u].busy.Some? ==> units[u].busy.value < n
  }

  ghost predicate Wf(s: State) {
    var n, cpus := |s.insts|, |s.decoder|;
    && |s.regs| == |s.nextId| == |s.writeReady| == |s.mustIssue| == cpus
    && InstsWf(s.insts, cpus)
    && AllBelow(s.supplier, n) && AllBelow(s.rob, n) && AllBelow(s.response, n)
    && AllBelow(s.generic, n) && AllBelow(s.ls, n) && AllBelow(s.io, n)
    && (forall c :: 0 <= c < cpus ==> AllBelow(s.decoder[c], n))
    && UnitsInRange(s.units, n)
    && (forall c, r :: 0 <= c < cpus && r in s.regs[c] ==> s.regs[c][r] < n)
  }
}
