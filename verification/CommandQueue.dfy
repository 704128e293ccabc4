/**
 The two producer/consumer queues of SpyTester, lock by lock: Tracer's command queue, whose
 worker pops a command after running it, and CallbackHandler's, whose worker pops a callback
 before running it. Any number of producers interleave with the worker and with the
 destructor that shuts it down.
 */
module CommandQueue {

  /** TRACER: Tracer::trace. CALLBACKS: CallbackHandler::handleCallback. */
  datatype Kind = TRACER | CALLBACKS

  /** A request, and the number of the promise it carries. */
  datatype Command = Command(promise: nat, request: int)

  datatype Holder = Free | Worker | Producer(p: nat)

  /** Where the worker is. */
  datatype Pc =
    | Test                    // at the test of _state or _running
    | Wait                    // at sem_wait
    | Acquire                 // about to lock the mutex for the first time in this round
    | Check                   // holding the mutex, at the test for an empty queue
    | Run(command: Command)   // running a command, mutex released
    | Reacquire               // about to lock the mutex after a command
    | Exited

  /**
   `pushed` are the producers that have pushed and not yet posted. The history: everything ever
   enqueued, the commands run, in order, with their results, how much had been enqueued when the
   queue was last seen empty, and which commands the worker thread itself enqueued from within a
   running one.
   */
  datatype State = State(
    kind: Kind,
    commands: seq<Command>, sem: nat, mutex: Holder, pc: Pc,
    pushed: set<nat>, stopping: bool, stopPosted: bool,
    enqueued: seq<Command>, executed: seq<Command>, fulfilled: map<nat, (int, int)>,
    observed: nat, nested: set<nat>)

  /** The producer that is the worker thread itself, inside a running command. */
  const SELF: nat := 0

  datatype Label =
    | Lock(p: nat) | Push(p: nat, request: int) | Unlock(p: nat) | Post(p: nat)
    | SetStop | PostStop
    | Work(result: int)     // the worker takes one step

  predicate Init(s: State) {
    && s.commands == [] && s.sem == 0 && s.mutex == Free && s.pushed == {} && !s.stopping && !s.stopPosted
    && s.pc == (if s.kind == TRACER then Test else Wait)
    && s.enqueued == [] && s.executed == [] && s.fulfilled == map[] && s.observed == 0 && s.nested == {}
  }

  /** The worker thread produces only from within a command, and finishes before that returns. */
  predicate MayProduce(s: State, p: nat) {
    p == SELF ==> s.pc.Run?
  }

  predicate WorkerCanStep(s: State) {
    match s.pc
    case Wait => s.sem > 0
    case Acquire => s.mutex == Free
    case Reacquire => s.mutex == Free
    case Run(_) => SELF !in s.pushed && s.mutex != Producer(SELF)
    case Exited => false
    case _ => true
  }

  predicate Enabled(s: State, l: Label) {
    match l
    case Lock(p) => s.mutex == Free && p !in s.pushed && MayProduce(s, p)
    case Push(p, _) => s.mutex == Producer(p) && p !in s.pushed
    case Unlock(p) => s.mutex == Producer(p) && p in s.pushed
    case Post(p) => s.mutex != Producer(p) && p in s.pushed
    case SetStop => !s.stopping
    case PostStop => s.stopping && !s.stopPosted
    case Work(_) => WorkerCanStep(s)
  }

  /** emplace or push, with the mutex held. */
  function PushOne(s: State, p: nat, request: int): State {
    var c := Command(|s.enqueued|, request);
    s.(commands := s.commands + [c], enqueued := s.enqueued + [c], pushed := s.pushed + {p},
    nested := if p == SELF then s.nested + {|s.enqueued|} else s.nested)
  }

  function WorkerStep(s: State, result: int): State
    requires WorkerCanStep(s)
  {
    match s.pc
    case Test => s.(pc := if s.stopping then Exited else Wait)
    case Wait => s.(sem := s.sem - 1, pc := Acquire)
    case Acquire => s.(mutex := Worker, pc := Check)
    case Check =>
      if s.commands == [] then s.(mutex := Free, pc := Test, observed := |s.enqueued|)
      else
        s.(mutex := Free, pc := Run(s.commands[0]),
        commands := if s.kind == TRACER then s.commands else s.commands[1..])
    case Run(c) =>
      s.(pc := Reacquire, executed := s.executed + [c],
      fulfilled := s.fulfilled[c.promise := (c.request, result)])
    case Reacquire =>
      s.(mutex := Worker, pc := Check,
      commands := if s.kind == TRACER && s.commands != [] then s.commands[1..] else s.commands)
  }

  function Apply(s: State, l: Label): State
    requires Enabled(s, l)
  {
    match l
    case Lock(p) => s.(mutex := Producer(p))
    case Push(p, request) => PushOne(s, p, request)
    case Unlock(p) => s.(mutex := Free)
    case Post(p) => s.(pushed := s.pushed - {p}, sem := s.sem + 1)
    case SetStop => s.(stopping := true)
    case PostStop => s.(stopPosted := true, sem := s.sem + 1)
    case Work(result) => WorkerStep(s, result)
  }

  function Exec(s0: State, ls: seq<Label>): State
    requires RunOk(s0, ls)
    decreases |ls|, 1
  {
    if ls == [] then s0 else Apply(Exec(s0, ls[..|ls| - 1]), ls[|ls| - 1])
  }

  predicate RunOk(s0: State, ls: seq<Label>)
    decreases |ls|, 0
  {
    ls != [] ==> RunOk(s0, ls[..|ls| - 1]) && Enabled(Exec(s0, ls[..|ls| - 1]), ls[|ls| - 1])
  }

  // ---------------------------------------------------------------- the invariant

  /** How many of the enqueued commands have left the queue. */
  function Popped(s: State): int {
    |s.enqueued| - |s.commands|
  }

  /** How far the commands run are ahead of the commands popped. */
  function Lead(s: State): int {
    if s.kind == TRACER && s.pc == Reacquire then 1
    else if s.kind == CALLBACKS && s.pc.Run? then -1
    else 0
  }

  predicate QueueOk(s: State) {
    && Popped(s) >= 0
    && s.commands == s.enqueued[Popped(s)..]
    && 0 <= |s.executed| <= |s.enqueued| && |s.executed| == Popped(s) + Lead(s)
    && s.executed == s.enqueued[..|s.executed|]
    && (s.pc.Run? ==> |s.executed| < |s.enqueued| && s.pc.command == s.enqueued[|s.executed|])
    && (s.pc == Check <==> s.mutex == Worker)
    && (forall i | 0 <= i < |s.enqueued| :: s.enqueued[i].promise == i)
  }

  /** Every promise of a command that has been run holds the result of its own request. */
  predicate PromisesOk(s: State)
    requires |s.executed| <= |s.enqueued|
  {
    && (forall i | i in s.fulfilled :: i < |s.executed|)
    && (forall i | 0 <= i < |s.executed| :: i in s.fulfilled && s.fulfilled[i].0 == s.enqueued[i].request)
  }

  predicate WakeupOk(s: State) {
    && (s.pc == Test || s.pc == Wait ==> |s.commands| <= s.sem + |s.pushed|)
    && (s.pc == Wait && s.stopPosted ==> s.sem > 0)
    && (s.stopPosted ==> s.stopping)
  }

  predicate ExitOk(s: State) {
    && s.observed <= |s.enqueued|
    && (s.pc == Test || s.pc == Wait || s.pc == Exited ==> |s.executed| == s.observed)
    && (forall i | i in s.nested :: i < |s.enqueued|)
    && (s.pc == Test || s.pc == Wait || s.pc == Exited ==> forall i | i in s.nested :: i < s.observed)
    && (s.pc == Exited ==> s.stopping)
    && (!s.pc.Run? ==> SELF !in s.pushed && s.mutex != Producer(SELF))
  }

  predicate Inv(s: State) {
    QueueOk(s) && PromisesOk(s) && WakeupOk(s) && ExitOk(s)
  }

  lemma {:induction false} StepKeepsInv(s: State, l: Label)
    requires Inv(s) && Enabled(s, l)
    ensures Inv(Apply(s, l))
  {
    StepKeepsQueue(s, l);
    StepKeepsPromises(s, l);
    StepKeepsWakeup(s, l);
    StepKeepsExit(s, l);
  }

  lemma {:induction false} StepKeepsQueue(s: State, l: Label)
    requires QueueOk(s) && Enabled(s, l)
    ensures QueueOk(Apply(s, l))
  {
    match l
    case Push(p, request) => PushKeepsQueue(s, p, request);
    case Work(result) => WorkKeepsQueue(s, result);
    case _ =>
  }

  lemma PushKeepsQueue(s: State, p: nat, request: int)
    requires QueueOk(s) && s.mutex == Producer(p)
    ensures QueueOk(PushOne(s, p, request))
  {
    var c := Command(|s.enqueued|, request);
    assert (s.enqueued + [c])[Popped(s)..] == s.enqueued[Popped(s)..] + [c];
    assert (s.enqueued + [c])[..|s.executed|] == s.enqueued[..|s.executed|];
  }

  lemma {:induction false} WorkKeepsQueue(s: State, result: int)
    requires QueueOk(s) && WorkerCanStep(s)
    ensures QueueOk(WorkerStep(s, result))
  {
    match s.pc
    case Run(_) => FinishKeepsQueue(s, result);
    case Check => CheckKeepsQueue(s, result);
    case Reacquire => PopKeepsQueue(s, result);
    case _ =>
  }

  lemma SuffixTail(commands: seq<Command>, n: nat)
    requires n < |commands|
    ensures commands[n..][1..] == commands[n + 1..]
  {
  }

  lemma CheckKeepsQueue(s: State, result: int)
    requires QueueOk(s) && s.pc == Check
    ensures QueueOk(WorkerStep(s, result))
  {
    if s.commands != [] {
      assert s.commands[0] == s.enqueued[Popped(s)];
      SuffixTail(s.enqueued, Popped(s));
    }
  }

  lemma PopKeepsQueue(s: State, result: int)
    requires QueueOk(s) && s.pc == Reacquire && WorkerCanStep(s)
    ensures QueueOk(WorkerStep(s, result))
  {
    if s.kind == TRACER {
      SuffixTail(s.enqueued, Popped(s));
    }
  }

  lemma FinishKeepsQueue(s: State, result: int)
    requires QueueOk(s) && s.pc.Run? && WorkerCanStep(s)
    ensures QueueOk(WorkerStep(s, result))
  {
    assert s.enqueued[..|s.executed| + 1] == s.enqueued[..|s.executed|] + [s.pc.command];
  }

  lemma StepKeepsPromises(s: State, l: Label)
    requires QueueOk(s) && PromisesOk(s) && Enabled(s, l)
    ensures |Apply(s, l).executed| <= |Apply(s, l).enqueued| && PromisesOk(Apply(s, l))
  {
    match l
    case Push(p, request) => assert s.enqueued <= PushOne(s, p, request).enqueued;
    case Work(result) => WorkKeepsPromises(s, result);
    case _ =>
  }

  lemma WorkKeepsPromises(s: State, result: int)
    requires QueueOk(s) && PromisesOk(s) && WorkerCanStep(s)
    ensures |WorkerStep(s, result).executed| <= |s.enqueued| && PromisesOk(WorkerStep(s, result))
  {
    if s.pc.Run? {
      assert WorkerStep(s, result).executed == s.enqueued[..|s.executed| + 1];
    }
  }

  lemma StepKeepsWakeup(s: State, l: Label)
    requires QueueOk(s) && WakeupOk(s) && Enabled(s, l)
    ensures WakeupOk(Apply(s, l))
  {
  }

  lemma StepKeepsExit(s: State, l: Label)
    requires QueueOk(s) && ExitOk(s) && Enabled(s, l)
    ensures ExitOk(Apply(s, l))
  {
    match l
    case Work(result) => WorkKeepsExit(s, result);
    case _ =>
  }

  lemma WorkKeepsExit(s: State, result: int)
    requires QueueOk(s) && ExitOk(s) && WorkerCanStep(s)
    ensures ExitOk(WorkerStep(s, result))
  {
  }

  lemma {:induction false} RunKeepsInv(s0: State, ls: seq<Label>)
    requires Init(s0) && RunOk(s0, ls)
    ensures Inv(Exec(s0, ls))
  {
    if ls != [] {
      RunKeepsInv(s0, ls[..|ls| - 1]);
      StepKeepsInv(Exec(s0, ls[..|ls| - 1]), ls[|ls| - 1]);
    }
  }

  // ---------------------------------------------------------------- what it means

  /** Under any interleaving the commands run are a prefix of the commands enqueued, each run once
      and in order, and while Tracer's worker runs a command with the mutex released that command
      stays at the head of the queue. */
  lemma {:induction false} RunsInOrder(s0: State, ls: seq<Label>)
    requires Init(s0) && RunOk(s0, ls)
    ensures var s := Exec(s0, ls);
            && s.executed <= s.enqueued
            && (s.pc.Run? ==> |s.executed| < |s.enqueued| && s.pc.command == s.enqueued[|s.executed|])
            && (s.pc.Run? && s.kind == TRACER ==> s.commands != [] && s.commands[0] == s.pc.command)
            && (s.pc.Run? && s.kind == CALLBACKS ==> |s.executed| < |s.enqueued| && s.commands == s.enqueued[|s.executed| + 1..])
  {
    RunKeepsInv(s0, ls);
  }

  /** A promise is fulfilled exactly when its command has been run, with the result of the request
      it was made for, and stays so. */
  lemma {:induction false} PromisesKept(s0: State, a: seq<Label>, b: seq<Label>, i: nat)
    requires Init(s0) && RunOk(s0, a) && RunOk(s0, a + b)
    ensures var s, s' := Exec(s0, a), Exec(s0, a + b);
            && (i in s.fulfilled <==> i < |s.executed|)
            && (i in s.fulfilled ==> i < |s.enqueued| && s.fulfilled[i].0 == s.enqueued[i].request)
            && (i in s.fulfilled ==> i in s'.fulfilled && s'.fulfilled[i] == s.fulfilled[i])
  {
    RunKeepsInv(s0, a);
    if b == [] {
      assert a + b == a;
    } else {
      var c := b[..|b| - 1];
      assert (a + b)[..|a + b| - 1] == a + c;
      PromisesKept(s0, a, c, i);
      RunKeepsInv(s0, a + c);
      if i in Exec(s0, a).fulfilled {
        StepKeepsFulfilled(Exec(s0, a + c), (a + b)[|a + b| - 1], i);
      }
    }
  }

  lemma StepKeepsFulfilled(s: State, l: Label, i: nat)
    requires Inv(s) && Enabled(s, l) && i in s.fulfilled
    ensures i in Apply(s, l).fulfilled && Apply(s, l).fulfilled[i] == s.fulfilled[i]
  {
    hide WakeupOk, ExitOk;
    if l.Work? && s.pc.Run? {
      assert s.pc.command.promise == |s.executed|;
    }
  }

  /** Each future receives what its own request has returned: the result with which the worker finished
      that command, whatever comes before and after. */
  lemma PromiseHoldsOwnResult(s0: State, a: seq<Label>, result: int, b: seq<Label>)
    requires Init(s0) && RunOk(s0, a) && RunOk(s0, a + [Work(result)]) && RunOk(s0, a + [Work(result)] + b)
    requires Exec(s0, a).pc.Run?
    ensures var c, s' := Exec(s0, a).pc.command, Exec(s0, a + [Work(result)] + b);
            c.promise in s'.fulfilled && s'.fulfilled[c.promise] == (c.request, result)
  {
    hide WakeupOk, ExitOk;
    assert (a + [Work(result)])[..|a|] == a;
    var c, v := Exec(s0, a).pc.command, Exec(s0, a + [Work(result)]);
    assert v.fulfilled[c.promise] == (c.request, result);
    PromisesKept(s0, a + [Work(result)], b, c.promise);
  }

  /** The semaphore counts posts less waits: nothing else touches it. */
  function Posts(ls: seq<Label>): nat {
    if ls == [] then 0
    else Posts(ls[..|ls| - 1]) + if ls[|ls| - 1].Post? || ls[|ls| - 1].PostStop? then 1 else 0
  }

  function Waits(s0: State, ls: seq<Label>): nat
    requires RunOk(s0, ls)
    decreases |ls|
  {
    if ls == [] then 0
    else
      Waits(s0, ls[..|ls| - 1])
      + if ls[|ls| - 1].Work? && Exec(s0, ls[..|ls| - 1]).pc == Wait then 1 else 0
  }

  lemma {:induction false} SemaphoreCountsPosts(s0: State, ls: seq<Label>)
    requires Init(s0) && RunOk(s0, ls)
    ensures Exec(s0, ls).sem == Posts(ls) - Waits(s0, ls)
    decreases |ls|
  {
    hide Apply, Enabled;
    if ls != [] {
      SemaphoreCountsPosts(s0, ls[..|ls| - 1]);
      SemaphoreStep(Exec(s0, ls[..|ls| - 1]), ls[|ls| - 1]);
    }
  }

  lemma SemaphoreStep(s: State, l: Label)
    requires Enabled(s, l)
    ensures Apply(s, l).sem == s.sem + (if l.Post? || l.PostStop? then 1 else 0) - if l.Work? && s.pc == Wait then 1 else 0
  {
  }

  /** No lost wakeup: a worker that is blocked with no producer between its push and its post has
      nothing to do, and the destructor has not posted either. */
  lemma {:induction false} NoLostWakeup(s0: State, ls: seq<Label>)
    requires Init(s0) && RunOk(s0, ls)
    ensures var s := Exec(s0, ls);
            s.pc == Wait ==>
              && |s.commands| <= s.sem + |s.pushed|
              && (s.sem == 0 && s.pushed == {} ==> s.commands == [] && |s.executed| == |s.enqueued| && !s.stopPosted)
  {
    RunKeepsInv(s0, ls);
  }

  /** The worker leaves its loop only when told to stop, having run everything that was enqueued
      when it last saw the queue empty; what it never runs was pushed after that, and nothing that
      a running command pushed is among it. */
  lemma {:induction false} ExitLeavesOnlyLateCommands(s0: State, ls: seq<Label>)
    requires Init(s0) && RunOk(s0, ls) && Exec(s0, ls).pc == Exited
    ensures var s := Exec(s0, ls);
            && s.stopping && s.observed <= |s.enqueued|
            && s.executed == s.enqueued[..s.observed]
            && (forall i | i in s.nested :: i < |s.executed|)
  {
    RunKeepsInv(s0, ls);
  }

  /** Command `i` has been enqueued, and the worker will look at the queue again before it leaves. */
  predicate WillRun(s: State, i: nat) {
    i < |s.enqueued| && (s.pc == Test || s.pc == Exited ==> i < s.observed)
  }

  lemma StepKeepsWillRun(s: State, l: Label, i: nat)
    requires Inv(s) && Enabled(s, l) && WillRun(s, i)
    ensures WillRun(Apply(s, l), i)
  {
    hide PromisesOk, WakeupOk;
  }

  lemma {:induction false} WillRunStays(s0: State, a: seq<Label>, b: seq<Label>, i: nat)
    requires Init(s0) && RunOk(s0, a) && RunOk(s0, a + b) && WillRun(Exec(s0, a), i)
    ensures WillRun(Exec(s0, a + b), i)
    decreases |b|
  {
    hide WillRun, Apply, Enabled, Inv;
    if b == [] {
      assert a + b == a;
    } else {
      var c := b[..|b| - 1];
      assert (a + b)[..|a + b| - 1] == a + c;
      WillRunStays(s0, a, c, i);
      RunKeepsInv(s0, a + c);
      StepKeepsWillRun(Exec(s0, a + c), (a + b)[|a + b| - 1], i);
    }
  }

  /** A command that is pushed while the worker is anywhere but between seeing the queue empty and
      deciding whether to stop is always run before the worker leaves. */
  lemma PushedInTimeIsRun(s0: State, a: seq<Label>, p: nat, request: int, b: seq<Label>)
    requires Init(s0) && RunOk(s0, a + [Push(p, request)]) && RunOk(s0, a + [Push(p, request)] + b) && RunOk(s0, a)
    requires Exec(s0, a).pc != Test && Exec(s0, a).pc != Exited
    requires Exec(s0, a + [Push(p, request)] + b).pc == Exited
    ensures |Exec(s0, a).enqueued| < |Exec(s0, a + [Push(p, request)] + b).executed|
  {
    hide Inv, PromisesOk, WakeupOk;
    var l := Push(p, request);
    assert (a + [l])[..|a + [l]| - 1] == a;
    WillRunStays(s0, a + [l], b, |Exec(s0, a).enqueued|);
    RunKeepsInv(s0, a + [l] + b);
    ExitLeavesOnlyLateCommands(s0, a + [l] + b);
  }

  predicate NoWork(ls: seq<Label>) {
    forall k | 0 <= k < |ls| :: !ls[k].Work?
  }

  /** Until the worker steps, it stays where it is, and nothing that is queued leaves the queue. */
  lemma {:induction false} WorkerWaits(s0: State, a: seq<Label>, b: seq<Label>)
    requires RunOk(s0, a) && RunOk(s0, a + b) && NoWork(b)
    ensures var s, s' := Exec(s0, a), Exec(s0, a + b);
            s'.pc == s.pc && s'.executed == s.executed && s'.observed == s.observed && s.enqueued <= s'.enqueued
    decreases |b|
  {
    hide Apply, Enabled;
    if b == [] {
      assert a + b == a;
    } else {
      var c := b[..|b| - 1];
      assert (a + b)[..|a + b| - 1] == a + c;
      assert forall k | 0 <= k < |c| :: c[k] == b[k];
      WorkerWaits(s0, a, c);
      OnlyWorkMoves(Exec(s0, a + c), (a + b)[|a + b| - 1]);
    }
  }

  lemma {:induction false} ExitIsFinal(s0: State, a: seq<Label>, b: seq<Label>)
    requires RunOk(s0, a) && RunOk(s0, a + b) && Exec(s0, a).pc == Exited
    ensures Exec(s0, a + b).pc == Exited && Exec(s0, a + b).executed == Exec(s0, a).executed
    decreases |b|
  {
    hide Apply, Enabled;
    if b == [] {
      assert a + b == a;
    } else {
      var c := b[..|b| - 1];
      assert (a + b)[..|a + b| - 1] == a + c;
      ExitIsFinal(s0, a, c);
      OnlyWorkMoves(Exec(s0, a + c), (a + b)[|a + b| - 1]);
    }
  }

  /** Only a step of the worker moves it or finishes a command, and there is none after it has left. */
  lemma OnlyWorkMoves(s: State, l: Label)
    requires Enabled(s, l) && (l.Work? ==> s.pc == Exited)
    ensures var s' := Apply(s, l);
            s'.pc == s.pc && s'.executed == s.executed && s'.observed == s.observed && s.enqueued <= s'.enqueued
  {
  }

  /** A command that is pushed while the worker is between the two is run, in the end, exactly if nobody has
      told the worker to stop by the time of its next step. */
  lemma PushedInWindowIsRunExactlyIf(s0: State, a: seq<Label>, p: nat, request: int, b: seq<Label>, result: int, c: seq<Label>)
    requires Init(s0) && RunOk(s0, a) && Exec(s0, a).pc == Test && NoWork(b)
    requires RunOk(s0, a + [Push(p, request)]) && RunOk(s0, a + [Push(p, request)] + b)
    requires RunOk(s0, a + [Push(p, request)] + b + [Work(result)])
    requires RunOk(s0, a + [Push(p, request)] + b + [Work(result)] + c)
    requires Exec(s0, a + [Push(p, request)] + b + [Work(result)] + c).pc == Exited
    ensures |Exec(s0, a).enqueued| < |Exec(s0, a + [Push(p, request)] + b + [Work(result)] + c).executed|
            <==> !Exec(s0, a + [Push(p, request)] + b).stopping
  {
    hide Inv, PromisesOk, WakeupOk, Enabled;
    var l1, l2 := Push(p, request), Work(result);
    var b1 := a + [l1] + b;
    var b2 := b1 + [l2];
    assert (a + [l1])[..|a + [l1]| - 1] == a;
    assert b2[..|b2| - 1] == b1;
    WorkerWaits(s0, a + [l1], b);
    RunKeepsInv(s0, a);
    TestMeansObserved(Exec(s0, a));
    if Exec(s0, b1).stopping {
      ExitIsFinal(s0, b2, c);
    } else {
      WillRunStays(s0, b2, c, |Exec(s0, a).enqueued|);
      RunKeepsInv(s0, b2 + c);
      ExitLeavesOnlyLateCommands(s0, b2 + c);
    }
  }

  lemma TestMeansObserved(s: State)
    requires Inv(s) && s.pc == Test
    ensures |s.executed| == s.observed <= |s.enqueued|
  {
    hide PromisesOk, WakeupOk;
  }

  /** The window can be reached and used, with either queue: one command is pushed and served, the next
      is pushed and posted before the destructor starts, and the worker leaves without it. */
  lemma LateCommandIsDropped(s0: State, request: int, result: int)
    requires Init(s0)
    ensures exists ls ::
              && RunOk(s0, ls) && Exec(s0, ls).pc == Exited && Exec(s0, ls).pushed == {}
              && |Exec(s0, ls).enqueued| == 2 && |Exec(s0, ls).executed| == 1
  {
    var first := ServeOne(s0, request, result);
    var s := Exec(s0, first);
    var second := DropOne(s, request, result);
    RunAppend(s0, first, second);
  }

  lemma RunAppend(s0: State, a: seq<Label>, b: seq<Label>)
    requires RunOk(s0, a) && RunOk(Exec(s0, a), b)
    ensures RunOk(s0, a + b) && Exec(s0, a + b) == Exec(Exec(s0, a), b)
    decreases |b|
  {
    if b == [] {
      assert a + b == a;
    } else {
      assert (a + b)[..|a + b| - 1] == a + b[..|b| - 1];
      RunAppend(s0, a, b[..|b| - 1]);
    }
  }

  /** The worker alone takes `n` steps. */
  lemma WorkAlone(s0: State, ls: seq<Label>, result: int) returns (ls': seq<Label>)
    requires RunOk(s0, ls) && WorkerCanStep(Exec(s0, ls))
    ensures ls' == ls + [Work(result)] && RunOk(s0, ls') && Exec(s0, ls') == WorkerStep(Exec(s0, ls), result)
  {
    Extend(s0, ls, Work(result));
    ls' := ls + [Work(result)];
  }

  lemma PushOneCommand(s: State, request: int) returns (ls: seq<Label>)
    requires s.mutex == Free && 1 !in s.pushed
    ensures RunOk(s, ls) && Exec(s, ls) == PushOne(s, 1, request).(sem := s.sem + 1, pushed := s.pushed)
  {
    var l1, l2, l3, l4 := Lock(1), Push(1, request), Unlock(1), Post(1);
    Extend(s, [], l1);
    assert [] + [l1] == [l1];
    Extend(s, [l1], l2);
    assert [l1] + [l2] == [l1, l2];
    Extend(s, [l1, l2], l3);
    assert [l1, l2] + [l3] == [l1, l2, l3];
    Extend(s, [l1, l2, l3], l4);
    assert [l1, l2, l3] + [l4] == [l1, l2, l3, l4];
    ls := [l1, l2, l3, l4];
    assert s.pushed + {1} - {1} == s.pushed;
  }

  lemma ServeOne(s0: State, request: int, result: int) returns (ls: seq<Label>)
    requires Init(s0)
    ensures RunOk(s0, ls)
    ensures var s := Exec(s0, ls);
            && s.pc == Test && !s.stopping && s.mutex == Free && s.pushed == {}
            && |s.enqueued| == 1 && |s.executed| == 1
  {
    hide Exec, RunOk;
    ls := PushOneCommand(s0, request);
    if s0.kind == TRACER {
      ls := WorkAlone(s0, ls, result);
    }
    ls := WorkAlone(s0, ls, result);
    ls := WorkAlone(s0, ls, result);
    ls := WorkAlone(s0, ls, result);
    ls := WorkAlone(s0, ls, result);
    ls := WorkAlone(s0, ls, result);
    ls := WorkAlone(s0, ls, result);
  }

  lemma DropOne(s: State, request: int, result: int) returns (ls: seq<Label>)
    requires s.pc == Test && !s.stopping && s.mutex == Free && 1 !in s.pushed
    ensures RunOk(s, ls)
    ensures var s' := Exec(s, ls);
            && s'.pc == Exited && s'.executed == s.executed && |s'.enqueued| == |s.enqueued| + 1 && s'.pushed == s.pushed
  {
    hide Exec, RunOk;
    ls := PushOneCommand(s, request);
    Extend(s, ls, SetStop);
    ls := ls + [SetStop];
    ls := WorkAlone(s, ls, result);
  }

  lemma Extend(s0: State, ls: seq<Label>, l: Label)
    requires RunOk(s0, ls) && Enabled(Exec(s0, ls), l)
    ensures RunOk(s0, ls + [l]) && Exec(s0, ls + [l]) == Apply(Exec(s0, ls), l)
  {
    assert (ls + [l])[..|ls|] == ls;
  }

  // ---------------------------------------------------------------- progress

  /** How many worker steps away the command enqueued as number `t` is, at most. */
  function Distance(s: State, t: nat): int {
    5 * (t - |s.executed|) +
    match s.pc
    case Test => 5
    case Wait => 4
    case Acquire => 3
    case Check => 2
    case Run(_) => 1
    case Reacquire => 3
    case Exited => 0
  }

  /** Every worker step brings a waiting command closer or runs it, and nothing that producers do
      behind it pushes it back. */
  lemma WorkerAdvances(s: State, l: Label, t: nat)
    requires Inv(s) && Enabled(s, l) && |s.executed| <= t < |s.enqueued|
    requires !(s.pc == Test && s.stopping)
    ensures var s' := Apply(s, l);
            if l.Work? then t < |s'.executed| || (|s'.executed| <= t && 0 <= Distance(s', t) < Distance(s, t))
            else |s'.executed| <= t && Distance(s', t) == Distance(s, t)
  {
    hide PromisesOk, WakeupOk, ExitOk;
  }

  /** While a command waits and the worker has not left, either the worker can step or a producer
      that is in the middle of its call can: no queued command needs a lock that a waiting client
      holds. */
  lemma NeverStuck(s: State, t: nat)
    requires Inv(s) && |s.executed| <= t < |s.enqueued| && s.pc != Exited
    ensures WorkerCanStep(s)
            || exists p :: Enabled(s, Push(p, 0)) || Enabled(s, Unlock(p)) || Enabled(s, Post(p))
  {
    hide PromisesOk;
    if s.mutex.Producer? {
      var p := s.mutex.p;
      assert Enabled(s, Push(p, 0)) || Enabled(s, Unlock(p));
    } else if !WorkerCanStep(s) {
      if s.pc == Wait {
        var p :| p in s.pushed;
        assert Enabled(s, Post(p));
      } else {
        assert Enabled(s, Post(SELF));
      }
    }
  }

  /** How many steps the worker has taken. */
  function Steps(ls: seq<Label>): nat {
    if ls == [] then 0 else Steps(ls[..|ls| - 1]) + if ls[|ls| - 1].Work? then 1 else 0
  }

  /** So a command is run within a number of worker steps that depends only on what was ahead of it
      when it was pushed, provided nobody stops the worker. */
  lemma {:induction false} WaitIsBounded(s0: State, a: seq<Label>, b: seq<Label>, t: nat)
    requires Init(s0) && RunOk(s0, a) && RunOk(s0, a + b)
    requires |Exec(s0, a).executed| <= t < |Exec(s0, a).enqueued|
    requires !Exec(s0, a + b).stopping
    ensures t < |Exec(s0, a + b).executed|
            || (Distance(Exec(s0, a), t) >= 0 && Steps(b) + Distance(Exec(s0, a + b), t) <= Distance(Exec(s0, a), t))
    ensures Steps(b) > Distance(Exec(s0, a), t) ==> t < |Exec(s0, a + b).executed|
    ensures t < |Exec(s0, a + b).enqueued| && (t >= |Exec(s0, a + b).executed| ==> Distance(Exec(s0, a + b), t) >= 0)
  {
    RunKeepsInv(s0, a);
    hide Inv, Apply, Enabled;
    if b == [] {
      assert a + b == a;
    } else {
      var c := b[..|b| - 1];
      assert (a + b)[..|a + b| - 1] == a + c;
      StopIsFinal(Exec(s0, a + c), (a + b)[|a + b| - 1]);
      WaitIsBounded(s0, a, c, t);
      RunKeepsInv(s0, a + c);
      HistoryGrows(Exec(s0, a + c), (a + b)[|a + b| - 1]);
      if t >= |Exec(s0, a + c).executed| {
        WorkerAdvances(Exec(s0, a + c), (a + b)[|a + b| - 1], t);
      }
    }
  }

  lemma StopIsFinal(s: State, l: Label)
    requires Enabled(s, l)
    ensures s.stopping ==> Apply(s, l).stopping
  {
  }

  lemma HistoryGrows(s: State, l: Label)
    requires Enabled(s, l)
    ensures s.enqueued <= Apply(s, l).enqueued && s.executed <= Apply(s, l).executed
  {
  }
}
