/**
 One traced thread seen from both sides: the kernel's registers, the commands queued for the
 tracer, and the fields with which SpiedThread caches the registers. A run is a sequence of
 labels; every interleaving of client calls, worker iterations, other producers and the
 tracee itself is such a sequence.
 */
module Ptrace {
  import opened Options
  import opened Words

  /** struct user_regs_struct, with the registers SpyTester never names lumped together. */
  datatype Regs = Regs(rip: Word64, rbp: Word64, rest: seq<Word64>)

  /** Closures queued by commandPTrace, writeWord and tkill. `Other` is a request that touches
      neither this thread's registers nor memory: another thread's, or a tgkill. */
  datatype Command =
    | PeekDr6
    | GetRegs
    | SetRegs
    | PokeDr6(value: bv64)
    | Cont(signum: nat)
    | SingleStep
    | PokeData(addr: Word64, word: Octets)
    | Other(id: nat)

  /** The two commands that let the tracee run. */
  predicate Go(c: Command) {
    c.Cont? || c.SingleStep?
  }

  /** Requests of other producers: they leave this thread's registers alone. */
  predicate Foreign(c: Command) {
    c.PokeData? || c.Other?
  }

  predicate AllForeign(cs: seq<Command>) {
    forall i | 0 <= i < |cs| :: Foreign(cs[i])
  }

  /** The commands that write the tracee's registers. */
  predicate WriteBack(c: Command) {
    c.SetRegs? || c.PokeDr6?
  }

  /** What a debugger could see of a stopped tracee. */
  datatype Sight = Sight(regs: Regs, dr6: bv64, mem: Memory)

  /** Trapped: stopped, but that has not been reported yet. Reported: stopped and known to be. */
  datatype Status = Running | Trapped | Reported

  datatype ThreadState = UNDETERMINED | STOPPED | CONTINUED | TERMINATED | EXITED
  datatype RegSync = OLD | SYNC | NEW

  /** What PTRACE_PEEKUSER returns on failure, converted to uint64_t. */
  const ERROR_VALUE: bv64 := 0xFFFF_FFFF_FFFF_FFFF

  /**
   `log` holds every command ever enqueued, of which the first `done` have been executed: a
   command's index is its ticket, and a future is the ticket of the command it waits for.
   `peeked`, `released` and `stepped` record, by ticket, the promise of each PEEKUSER, what the
   tracee looked like when each CONT or SINGLESTEP let it go, and what it had become after each
   SINGLESTEP. The remaining members are the fields of SpiedThread; `stepping` is the ticket
   singleStep is blocked on, with the state mutex held.
   */
  datatype World = World(
    log: seq<Command>, done: nat,
    tracee: Sight, status: Status,
    peeked: map<nat, bv64>, released: map<nat, Sight>, stepped: map<nat, Sight>,
    state: ThreadState, regSync: RegSync,
    regs: Regs, futureRegs: Option<nat>,
    dr6: bv64, futureDr6: Option<nat>,
    stepping: Option<nat>)

  function Queue(w: World): seq<Command>
    requires w.done <= |w.log|
  {
    w.log[w.done..]
  }

  function Enqueue(w: World, c: Command): World {
    w.(log := w.log + [c])
  }

  /** The worker runs the head of the queue. `outcome` is what an executed instruction makes of
      the tracee. Requests on a tracee that is not stopped fail and change nothing. */
  function Execute(w: World, outcome: Sight): (r: World)
    requires w.done < |w.log|
    ensures r.log == w.log && r.done == w.done + 1
    ensures r.state == w.state && r.regSync == w.regSync && r.stepping == w.stepping
    ensures r.futureRegs == w.futureRegs && r.futureDr6 == w.futureDr6 && r.dr6 == w.dr6
    ensures !Go(w.log[w.done]) ==> r.status == w.status
    ensures w.log[w.done].SingleStep? && !w.status.Running? ==> r.status == Trapped
    ensures w.status.Running? ==> r.status.Running?
  {
    var t := w.done;
    var w' := w.(done := t + 1);
    var stopped := !w.status.Running?;
    match w.log[t]
    case PeekDr6 => w'.(peeked := w.peeked[t := if stopped then w.tracee.dr6 else ERROR_VALUE])
    case GetRegs => if stopped then w'.(regs := w.tracee.regs) else w'
    case SetRegs => if stopped then w'.(tracee := w.tracee.(regs := w.regs)) else w'
    case PokeDr6(value) => if stopped then w'.(tracee := w.tracee.(dr6 := value)) else w'
    case Cont(_) =>
      if stopped then w'.(status := Running, released := w.released[t := w.tracee]) else w'
    case SingleStep =>
      if stopped then
        w'.(status := Trapped, released := w.released[t := w.tracee],
        tracee := outcome, stepped := w.stepped[t := outcome])
      else w'
    case PokeData(addr, word) => w'.(tracee := w.tracee.(mem := Poke(w.tracee.mem, addr, word)))
    case Other(_) => w'
  }

  /** SpiedThread::setState. */
  function WithState(w: World, state: ThreadState): World {
    w.(regSync := OLD, state := state)
  }

  // Client calls enqueue several commands, and other producers may slip theirs (`a`, `b`) in
  // between.

  /** Nothing has been executed, only enqueued. */
  predicate OnlyEnqueues(w: World, w': World) {
    && w.log <= w'.log && w'.done == w.done
    && w'.peeked == w.peeked && w'.released == w.released && w'.stepped == w.stepped
  }

  /** SpiedThread::readRegisters. */
  function ReadRegisters(w: World, a: seq<Command>): (r: World)
    ensures OnlyEnqueues(w, r)
  {
    if w.state == STOPPED && w.regSync == OLD then
      w.(log := w.log + [PeekDr6] + a + [GetRegs], regSync := SYNC,
      futureDr6 := Some(|w.log|), futureRegs := Some(|w.log| + 1 + |a|))
    else w.(log := w.log + a)
  }

  /** What writeRegisters enqueues: a cache part whose future is still unread is not dirty. */
  function DirtyRegs(w: World): seq<Command> {
    if w.regSync == NEW && w.futureRegs.None? then [SetRegs] else []
  }

  function DirtyDr6(w: World): seq<Command> {
    if w.regSync == NEW && w.futureDr6.None? then [PokeDr6(w.dr6)] else []
  }

  /** SpiedThread::writeRegisters. */
  function WriteRegisters(w: World, a: seq<Command>): (r: World)
    ensures OnlyEnqueues(w, r)
  {
    w.(log := w.log + DirtyRegs(w) + a + DirtyDr6(w), regSync := if w.regSync == NEW then SYNC else w.regSync)
  }

  /** The part that resume and singleStep share. */
  function LetGo(w: World, a: seq<Command>, b: seq<Command>, c: Command): (r: World)
    ensures OnlyEnqueues(w, r)
  {
    var w' := WriteRegisters(w, a);
    w'.(log := w'.log + b + [c])
  }

  datatype Label =
    | Worker(outcome: Sight)        // one iteration of the worker loop
    | Produce(command: Command)     // another producer's request
    | Trap(sight: Sight)            // the running tracee stops
    | ReportStop                    // waitpid reports a stop to handleEvent, in time or late
    | ReportOther(state: ThreadState)
    | Read(a: seq<Command>)         // readRegisters
    | AwaitRegs                     // _futureRegs.get() returns
    | AwaitDr6                      // _futureDr6.get() returns
    | Jump(addr: Word64)            // the assignment in jump, after its read
    | SetDr6(value: bv64)           // the assignment in setDr6, after its read
    | Resume(signum: nat, a: seq<Command>, b: seq<Command>)
    | StepBegin(a: seq<Command>, b: seq<Command>)   // singleStep up to its wait
    | StepEnd

  predicate NoGo(q: seq<Command>) {
    forall i | 0 <= i < |q| :: !Go(q[i])
  }

  predicate FutureReady(w: World, future: Option<nat>) {
    future.Some? && future.value < w.done
  }

  /** When a label can happen. While singleStep is blocked it holds the state mutex, which Read,
      Jump, SetDr6, Resume and the event handler take. A stop is reported after the command that
      caused it has run, and possibly long after: when the next command that lets the tracee go is
      queued already, or has been executed. */
  predicate Enabled(w: World, l: Label)
    requires w.done <= |w.log|
  {
    match l
    case Worker(outcome) => w.done < |w.log| && |outcome.mem| == |w.tracee.mem|
    case Produce(c) => Foreign(c)
    case Trap(sight) => w.status.Running? && |sight.mem| == |w.tracee.mem|
    case ReportStop => !w.status.Reported? && w.stepping.None?
    case ReportOther(state) => !w.status.Reported? && w.stepping.None? && state != STOPPED
    case Read(a) => w.stepping.None? && AllForeign(a)
    case AwaitRegs => FutureReady(w, w.futureRegs)
    case AwaitDr6 => FutureReady(w, w.futureDr6)
    case Jump(_) => w.stepping.None? && w.state == STOPPED && w.regSync != OLD && w.futureRegs.None?
    case SetDr6(_) => w.stepping.None? && (w.state == STOPPED ==> w.regSync != OLD) && w.futureDr6.None?
    case Resume(_, a, b) => w.stepping.None? && AllForeign(a) && AllForeign(b)
    case StepBegin(a, b) => w.stepping.None? && AllForeign(a) && AllForeign(b)
    case StepEnd => FutureReady(w, w.stepping)
  }

  function Apply(w: World, l: Label): (w': World)
    requires w.done <= |w.log| && Enabled(w, l)
    ensures w'.done <= |w'.log|
    ensures l.Worker? ==> w.done < |w.log| && w' == Execute(w, l.outcome)
    ensures !l.Worker? ==> OnlyEnqueues(w, w')
  {
    match l
    case Worker(outcome) => Execute(w, outcome)
    case Produce(c) => Enqueue(w, c)
    case Trap(sight) => w.(tracee := sight, status := Trapped)
    case ReportStop => WithState(w.(status := if w.status.Running? then Running else Reported), STOPPED)
    case ReportOther(state) => WithState(w, state)
    case Read(a) => ReadRegisters(w, a)
    case AwaitRegs => w.(futureRegs := None)
    case AwaitDr6 =>
      var t := w.futureDr6.value;
      w.(dr6 := if t in w.peeked then w.peeked[t] else ERROR_VALUE, futureDr6 := None)
    case Jump(addr) => w.(regs := w.regs.(rip := addr), regSync := NEW)
    case SetDr6(value) => w.(dr6 := value, regSync := NEW)
    case Resume(signum, a, b) => WithState(LetGo(w, a, b, Cont(signum)), CONTINUED)
    case StepBegin(a, b) =>
      var w' := LetGo(w, a, b, SingleStep);
      w'.(stepping := Some(|w'.log| - 1))
    case StepEnd => w.(stepping := None)
  }

  /** `w'` is `w` after `l`. */
  predicate Goes(w: World, l: Label, w': World) {
    w.done <= |w.log| && Enabled(w, l) && w' == Apply(w, l)
  }

  function DropLast(ls: seq<Label>): (r: seq<Label>)
    requires |ls| > 0
    ensures |r| == |ls| - 1
  {
    ls[..|ls| - 1]
  }

  /** The world after the labels `ls`, provided each was enabled in turn. */
  function Exec(w0: World, ls: seq<Label>): (w: World)
    requires RunOk(w0, ls)
    ensures w.done <= |w.log|
    decreases |ls|, 1
  {
    if ls == [] then w0 else Apply(Exec(w0, DropLast(ls)), ls[|ls| - 1])
  }

  predicate RunOk(w0: World, ls: seq<Label>)
    decreases |ls|, 0
  {
    if ls == [] then w0.done <= |w0.log|
    else RunOk(w0, DropLast(ls)) && Enabled(Exec(w0, DropLast(ls)), ls[|ls| - 1])
  }

  /** A thread as the event listener creates it: stopped, reported, nothing cached. */
  predicate Init(w: World) {
    && w.done <= |w.log|
    && AllForeign(Queue(w))
    && w.status == Reported && w.state == STOPPED && w.regSync == OLD
    && w.futureRegs.None? && w.futureDr6.None? && w.stepping.None?
  }

  /** Extending a run by one label. */
  lemma ExecSnoc(w0: World, ls: seq<Label>, l: Label)
    requires RunOk(w0, ls) && Enabled(Exec(w0, ls), l)
    ensures RunOk(w0, ls + [l]) && Exec(w0, ls + [l]) == Apply(Exec(w0, ls), l)
  {
    assert DropLast(ls + [l]) == ls;
  }

  /** `w'` is where the labels `ls` lead from `w`. */
  predicate Leads(w: World, ls: seq<Label>, w': World) {
    RunOk(w, ls) && Exec(w, ls) == w'
  }

  lemma LeadsNowhere(w: World)
    requires w.done <= |w.log|
    ensures Leads(w, [], w)
  {
  }

  lemma LeadsOn(w: World, ls: seq<Label>, v: World, l: Label)
    requires Leads(w, ls, v) && v.done <= |v.log| && Enabled(v, l)
    ensures Leads(w, ls + [l], Apply(v, l))
  {
    hide Apply, Enabled, Exec, RunOk;
    ExecSnoc(w, ls, l);
  }

  lemma {:induction false} LeadsThrough(w: World, a: seq<Label>, v: World, b: seq<Label>, w': World)
    requires Leads(w, a, v) && Leads(v, b, w')
    ensures Leads(w, a + b, w')
    decreases |b|
  {
    hide Apply, Enabled;
    if b == [] {
      assert a + b == a;
    } else {
      assert DropLast(a + b) == a + DropLast(b);
      LeadsThrough(w, a, v, DropLast(b), Exec(v, DropLast(b)));
    }
  }
}
