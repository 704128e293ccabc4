/**
 The loops of the two worker threads as code: CallbackHandler::handleCallback and Tracer::trace.
 The object keeps the run of lock-level steps that led to its state, so every theorem about
 runs of the queue is a theorem about the loops.
 */
module CallbackHandlers {
  import opened CommandQueue

  class Handler {
    const kind: Kind
    var commands: seq<Command>
    var sem: nat
    var mutex: Holder
    var stopping: bool
    var patience: nat          // how many steps all other threads together may still take

    // What other threads and the worker are in the middle of, and the history.
    var pc: Pc
    var pushed: set<nat>
    var stopPosted: bool
    var enqueued: seq<Command>
    var executed: seq<Command>
    var fulfilled: map<nat, (int, int)>
    var observed: nat
    var nested: set<nat>

    ghost var origin: State
    ghost var run: seq<Label>

    function View(): State
      reads this
    {
      State(kind, commands, sem, mutex, pc, pushed, stopping, stopPosted, enqueued, executed, fulfilled, observed, nested)
    }

    ghost predicate Valid()
      reads this
    {
      Init(origin) && RunOk(origin, run) && Exec(origin, run) == View()
    }

    constructor (kind: Kind, patience: nat)
      ensures Valid() && this.kind == kind && View() == origin && this.patience == patience
      ensures pc == if kind == TRACER then Test else Wait
    {
      this.kind, this.patience := kind, patience;
      commands, sem, mutex, stopping, stopPosted, pushed := [], 0, Free, false, false, {};
      enqueued, executed, fulfilled, observed, nested := [], [], map[], 0, {};
      pc := if kind == TRACER then Test else Wait;
      run := [];
      new;
      origin := View();
    }

    /** The fields have just changed as `l` says. */
    ghost method Record(l: Label)
      requires Init(origin) && RunOk(origin, run) && Enabled(Exec(origin, run), l)
      requires View() == Apply(Exec(origin, run), l)
      modifies this`run
      ensures Valid() && run == old(run) + [l]
    {
      hide Apply, Enabled;
      Extend(origin, run, l);
      run := run + [l];
    }

    /** push or emplace. */
    method Append(p: nat, request: int)
      modifies this`nested, this`commands, this`enqueued, this`pushed
      ensures View() == PushOne(old(View()), p, request)
    {
      if p == SELF {
        nested := nested + {|enqueued|};
      }
      commands := commands + [Command(|enqueued|, request)];
      enqueued := enqueued + [Command(|enqueued|, request)];
      pushed := pushed + {p};
    }

    /** Another thread, or the running command, takes a step of executeCallback, commandPTrace,
        tkill or the destructor. */
    method Elsewhere(l: Label)
      requires Valid() && patience > 0 && !l.Work? && Enabled(View(), l)
      modifies this
      ensures Valid() && patience == old(patience) - 1 && origin == old(origin) && run == old(run) + [l]
      ensures |commands| <= |old(commands)| + 1 && sem <= old(sem) + 1 && pc == old(pc)
    {
      hide Exec, RunOk;
      patience := patience - 1;
      match l {
        case Lock(p) => mutex := Producer(p);
        case Push(p, request) => Append(p, request);
        case Unlock(_) => mutex := Free;
        case Post(p) =>
          pushed := pushed - {p};
          sem := sem + 1;
        case SetStop => stopping := true;
        case PostStop =>
          stopPosted := true;
          sem := sem + 1;
      }
      Record(l);
    }

    /** Others run for a while; `go` tells whether the worker can take its next step, which fails only
        if the others never do what it waits for. */
    method Await() returns (go: bool)
      requires Valid()
      modifies this
      ensures Valid() && origin == old(origin) && pc == old(pc)
      ensures go == WorkerCanStep(View()) && (!go ==> patience == 0)
      ensures patience + |commands| <= old(patience + |commands|) && patience + sem <= old(patience + sem)
    {
      hide Exec, RunOk, Enabled, WorkerCanStep;
      var more: bool := *;
      while patience > 0 && (more || !WorkerCanStep(View()))
        invariant Valid() && origin == old(origin) && pc == old(pc)
        invariant patience + |commands| <= old(patience + |commands|) && patience + sem <= old(patience + sem)
        decreases patience
      {
        var l: Label := *;
        if !l.Work? && Enabled(View(), l) {
          Elsewhere(l);
        } else {
          patience := patience - 1;
        }
        more := *;
      }
      go := WorkerCanStep(View());
    }

    /** sem_wait and the lock after it. */
    method Enter() returns (waiting: bool)
      requires Valid() && pc == Wait
      modifies this
      ensures Valid() && origin == old(origin) && (waiting ==> patience == 0 && !WorkerCanStep(View()))
      ensures !waiting ==> pc == Check && mutex == Worker && patience + sem < old(patience + sem)
    {
      hide Exec, RunOk, WorkerCanStep;
      var go := Await();
      if !go {
        return true;
      }
      SemWait();
      go := Await();
      if !go {
        return true;
      }
      Lock();
      return false;
    }

    method SemWait()
      requires Valid() && pc == Wait && WorkerCanStep(View())
      modifies this`sem, this`pc, this`run
      ensures Valid() && pc == Acquire && sem == old(sem) - 1
    {
      hide Exec, RunOk;
      sem, pc := sem - 1, Acquire;
      Record(Work(0));
    }

    method Lock()
      requires Valid() && pc == Acquire && WorkerCanStep(View())
      modifies this`mutex, this`pc, this`run
      ensures Valid() && pc == Check && mutex == Worker
    {
      hide Exec, RunOk;
      mutex, pc := Worker, Check;
      Record(Work(0));
    }

    /** The test at the end of a round of handleCallback, and at the head of one of trace. */
    method Leave()
      requires Valid() && pc == Test
      modifies this`pc, this`run
      ensures Valid() && pc == if stopping then Exited else Wait
    {
      hide Exec, RunOk;
      pc := if stopping then Exited else Wait;
      Record(Work(0));
    }

    /** unlock, having found the queue empty. */
    method Release()
      requires Valid() && pc == Check && mutex == Worker && commands == []
      modifies this`mutex, this`pc, this`observed, this`run
      ensures Valid() && pc == Test
    {
      hide Exec, RunOk;
      mutex, pc, observed := Free, Test, |enqueued|;
      Record(Work(0));
    }

    /** command(): the command of which `pc` says that it is being run returns. */
    method Finish(c: Command, result: int)
      requires Valid() && pc == Run(c) && WorkerCanStep(View())
      modifies this`executed, this`fulfilled, this`pc, this`run
      ensures Valid() && pc == Reacquire && executed == old(executed) + [c]
    {
      hide Exec, RunOk;
      executed, pc := executed + [c], Reacquire;
      fulfilled := fulfilled[c.promise := (c.request, result)];
      Record(Work(result));
    }

    /** front, pop and unlock of handleCallback. */
    method TakeFront() returns (callback: Command)
      requires Valid() && kind == CALLBACKS && pc == Check && mutex == Worker && commands != []
      modifies this`commands, this`mutex, this`pc, this`run
      ensures Valid() && pc == Run(callback) && callback == old(commands[0]) && commands == old(commands)[1..]
    {
      hide Exec, RunOk;
      callback := commands[0];
      commands := commands[1..];
      mutex, pc := Free, Run(callback);
      Record(Work(0));
    }

    /** The lock after a callback. */
    method Relock()
      requires Valid() && kind == CALLBACKS && pc == Reacquire && WorkerCanStep(View())
      modifies this`mutex, this`pc, this`run
      ensures Valid() && pc == Check && mutex == Worker
    {
      hide Exec, RunOk;
      mutex, pc := Worker, Check;
      Record(Work(0));
    }

    /** front and unlock of trace. */
    method StartFront()
      requires Valid() && kind == TRACER && pc == Check && mutex == Worker && commands != []
      modifies this`mutex, this`pc, this`run
      ensures Valid() && pc == Run(commands[0])
    {
      hide Exec, RunOk;
      mutex, pc := Free, Run(commands[0]);
      Record(Work(0));
    }

    /** The lock after a command of trace, and pop. */
    method PopFront()
      requires Valid() && kind == TRACER && pc == Reacquire && WorkerCanStep(View()) && commands != []
      modifies this`commands, this`mutex, this`pc, this`run
      ensures Valid() && pc == Check && mutex == Worker && commands == old(commands)[1..]
    {
      hide Exec, RunOk;
      commands := commands[1..];
      mutex, pc := Worker, Check;
      Record(Work(0));
    }

    /** One callback, from the test of the queue to the lock after it. */
    method RunCallback() returns (waiting: bool)
      requires Valid() && kind == CALLBACKS && pc == Check && mutex == Worker && commands != []
      modifies this
      ensures Valid() && origin == old(origin) && (waiting ==> patience == 0 && !WorkerCanStep(View()))
      ensures !waiting ==> pc == Check && mutex == Worker && patience + sem <= old(patience + sem)
      ensures !waiting ==> patience + |commands| < old(patience + |commands|)
    {
      hide Exec, RunOk, Apply, WorkerCanStep, Init, Enabled;
      var callback := TakeFront();
      var go := Await();
      if !go {
        return true;
      }
      var result: int := *;
      Finish(callback, result);
      go := Await();
      if !go {
        return true;
      }
      Relock();
      return false;
    }

    /** The inner loop of CallbackHandler::handleCallback, which pops a callback and then runs it. */
    method RunCallbacks() returns (waiting: bool)
      requires Valid() && kind == CALLBACKS && pc == Check && mutex == Worker
      modifies this
      ensures Valid() && origin == old(origin) && (waiting ==> patience == 0 && !WorkerCanStep(View()))
      ensures !waiting ==> pc == Test && patience + sem <= old(patience + sem)
    {
      hide Exec, RunOk, Apply, WorkerCanStep, Init, Enabled;
      while commands != []
        invariant Valid() && origin == old(origin) && pc == Check && mutex == Worker
        invariant patience + sem <= old(patience + sem)
        decreases patience + |commands|
      {
        waiting := RunCallback();
        if waiting {
          return;
        }
      }
      Release();
      return false;
    }

    /** One command, from the test of the queue to its pop. */
    method RunCommand() returns (waiting: bool)
      requires Valid() && kind == TRACER && pc == Check && mutex == Worker && commands != []
      modifies this
      ensures Valid() && origin == old(origin) && (waiting ==> patience == 0 && !WorkerCanStep(View()))
      ensures !waiting ==> pc == Check && mutex == Worker && patience + sem <= old(patience + sem)
      ensures !waiting ==> patience + |commands| < old(patience + |commands|)
    {
      hide Exec, RunOk, Apply, WorkerCanStep, Init, Enabled;
      StartFront();
      var go := Await();
      if !go {
        return true;
      }
      HeadStays();
      var result: int := *;
      Finish(commands[0], result);
      go := Await();
      if !go {
        return true;
      }
      HeadStays();
      PopFront();
      return false;
    }

    /** The inner loop of Tracer::trace, which runs the command at the head of the queue in place and
        then pops it. */
    method RunCommands() returns (waiting: bool)
      requires Valid() && kind == TRACER && pc == Check && mutex == Worker
      modifies this
      ensures Valid() && origin == old(origin) && (waiting ==> patience == 0 && !WorkerCanStep(View()))
      ensures !waiting ==> pc == Test && patience + sem <= old(patience + sem)
    {
      hide Exec, RunOk, Apply, WorkerCanStep, Init, Enabled;
      while commands != []
        invariant Valid() && origin == old(origin) && pc == Check && mutex == Worker
        invariant patience + sem <= old(patience + sem)
        decreases patience + |commands|
      {
        waiting := RunCommand();
        if waiting {
          return;
        }
      }
      Release();
      return false;
    }

    /** The front of the queue is still the command that is run, or has been run and not popped. */
    ghost method HeadStays()
      requires Valid() && kind == TRACER && (pc.Run? || pc == Reacquire)
      ensures commands != [] && (pc.Run? ==> pc.command == commands[0])
    {
      hide Exec, RunOk;
      RunKeepsInv(origin, run);
      RunsInOrder(origin, run);
    }

    /** CallbackHandler::handleCallback. `waiting`: it is still blocked when the others have taken all
        the steps they ever take. */
    method HandleCallback() returns (waiting: bool)
      requires Valid() && kind == CALLBACKS && pc == Wait
      modifies this
      ensures Valid() && (waiting ==> patience == 0 && !WorkerCanStep(View()))
      ensures !waiting ==>
                && pc == Exited && stopping && observed <= |enqueued| && executed == enqueued[..observed]
                && forall i | i in nested :: i < |executed|
    {
      hide Exec, RunOk, WorkerCanStep;
      while true
        invariant Valid() && origin == old(origin) && pc == Wait
        decreases patience + sem
      {
        waiting := Enter();
        if waiting {
          return;
        }
        waiting := RunCallbacks();
        if waiting {
          return;
        }
        var go := Await();
        var running := !stopping;
        Leave();
        if !running {
          break;
        }
      }
      ExitLeavesOnlyLateCommands(origin, run);
    }

    /** Tracer::trace, from its loop on. */
    method Trace() returns (waiting: bool)
      requires Valid() && kind == TRACER && pc == Test
      modifies this
      ensures Valid() && (waiting ==> patience == 0 && !WorkerCanStep(View()))
      ensures !waiting ==>
                && pc == Exited && stopping && observed <= |enqueued| && executed == enqueued[..observed]
    {
      hide Exec, RunOk, WorkerCanStep;
      waiting := false;
      var go := Await();
      while !stopping
        invariant Valid() && origin == old(origin) && pc == Test && !waiting
        decreases patience + sem
      {
        Leave();
        waiting := Enter();
        if waiting {
          return;
        }
        waiting := RunCommands();
        if waiting {
          return;
        }
        go := Await();
      }
      Leave();
      ExitLeavesOnlyLateCommands(origin, run);
    }
  }
}
