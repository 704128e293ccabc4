/**
 SpiedThread and the part of Tracer it leans on, as objects. Wherever the source lets other
 threads run, so do these methods: the worker may execute any number of commands and other
 producers may enqueue theirs. Each object keeps the run of labels that led to its state, so
 every theorem about runs is a theorem about the object.
 */
module SpiedThreads {
  import opened Options
  import opened Words
  import opened Ptrace
  import opened RegisterCache
  import opened CacheTheorems
  import opened Reserved
  import opened Events
  import opened LateReports

  /** handleEvent lets the thread go on by itself: after a clone event, and after signals it does not
      know. */
  predicate Resumes(signal: nat, ptraceEvent: nat) {
    if signal == SIGTRAP then ptraceEvent == PTRACE_EVENT_CLONE else signal != SIGSEGV && signal != SIGSTOP
  }

  /** With what: a clone event is not a signal, and other signals go back to the program. */
  function Answer(signal: nat, ptraceEvent: nat): seq<Command> {
    if !Resumes(signal, ptraceEvent) then []
    else if signal == SIGTRAP then [Cont(0)] else [Cont(signal)]
  }

  class Tracer {
    var commands: seq<Command>
    var issued: nat      // tickets handed out
    var executed: nat    // commands run
    ghost var log: seq<Command>

    // The kernel's side.
    var tracee: Sight
    var status: Status
    var promises: map<nat, bv64>
    ghost var released: map<nat, Sight>
    ghost var stepped: map<nat, Sight>

    ghost predicate Valid()
      reads this
    {
      executed <= |log| && issued == |log| && commands == log[executed..]
    }

    /** Tracer::commandPTrace, seen from the calling thread. */
    method CommandPTrace(c: Command) returns (future: nat)
      requires Valid()
      modifies this`commands, this`issued, this`log
      ensures Valid() && log == old(log) + [c] && future == |old(log)|
    {
      future := issued;
      commands := commands + [c];
      issued := issued + 1;
      log := log + [c];
    }

    /** Other producers enqueue whatever they like, except for the words at `reserved`. */
    method Others(reserved: set<Word64>) returns (ghost a: seq<Command>)
      requires Valid()
      modifies this`commands, this`issued, this`log
      ensures Valid() && log == old(log) + a && AllForeign(a) && AllClear(a, reserved)
    {
      a := [];
      var more: nat := *;
      while more > 0
        invariant Valid() && log == old(log) + a && AllForeign(a) && AllClear(a, reserved)
      {
        var c: Command := *;
        if Foreign(c) && Clear(c, reserved) {
          var future := CommandPTrace(c);
          a := a + [c];
        }
        more := more - 1;
      }
    }

    /** One iteration of the worker loop; `buffer` is the thread whose `_regs` the queued closures
        point to, and `outcome` what an executed instruction makes of the tracee. */
    method RunFront(buffer: SpiedThread, outcome: Sight)
      requires Valid() && commands != [] && buffer.tracer == this
      modifies this, buffer`regs
      ensures Valid() && buffer.Snapshot() == Execute(old(buffer.Snapshot()), outcome)
    {
      hide Execute;
      assert commands[0] == log[executed];
      Perform(commands[0], buffer, outcome);
      commands := commands[1..];
      executed := executed + 1;
    }

    /** The call of ptrace or tgkill in a queued closure. */
    method Perform(c: Command, buffer: SpiedThread, outcome: Sight)
      requires executed < |log| && c == log[executed] && buffer.tracer == this
      modifies this`tracee, this`status, this`promises, this`released, this`stepped, buffer`regs
      ensures buffer.Snapshot().(done := executed + 1) == Execute(old(buffer.Snapshot()), outcome)
    {
      var stopped := !status.Running?;
      var ticket := executed;
      match c {
        case PeekDr6 =>
          promises := promises[ticket := if stopped then tracee.dr6 else ERROR_VALUE];
        case GetRegs =>
          if stopped { buffer.regs := tracee.regs; }
        case SetRegs =>
          if stopped { tracee := tracee.(regs := buffer.regs); }
        case PokeDr6(value) =>
          if stopped { tracee := tracee.(dr6 := value); }
        case Cont(_) =>
          if stopped {
            released := released[ticket := tracee];
            status := Running;
          }
        case SingleStep =>
          if stopped {
            released := released[ticket := tracee];
            stepped := stepped[ticket := outcome];
            tracee := outcome;
            status := Trapped;
          }
        case PokeData(addr, word) =>
          tracee := tracee.(mem := Poke(tracee.mem, addr, word));
        case Other(_) =>
      }
    }
  }

  class SpiedThread {
    const tracer: Tracer
    const reserved: set<Word64>    // words that no one but their breakpoint writes

    var state: ThreadState
    var regSync: RegSync
    var regs: Regs
    var futureRegs: Option<nat>
    var dr6: bv64
    var futureDr6: Option<nat>
    var isSigTrapExpected: bool

    ghost var stepping: Option<nat>
    ghost var origin: World
    ghost var run: seq<Label>

    ghost function Snapshot(): World
      reads this, tracer
    {
      World(tracer.log, tracer.executed, tracer.tracee, tracer.status,
                  tracer.promises, tracer.released, tracer.stepped,
                  state, regSync, regs, futureRegs, dr6, futureDr6, stepping)
    }

    /** The object is where its run has led it. */
    ghost predicate Valid()
      reads this, tracer
    {
      && tracer.Valid()
      && Init(origin) && RunOk(origin, run) && Exec(origin, run) == Snapshot()
    }

    /** The direct register file that the cache stands for. */
    ghost function DirectFile(): File
      requires Valid()
      reads this, tracer
    {
      Direct(origin, run)
    }

    /** A thread as listenEvent creates it. */
    constructor (tracer: Tracer, reserved: set<Word64>, regs: Regs)
      requires tracer.Valid() && tracer.status == Reported && AllForeign(tracer.commands)
      ensures Valid() && this.tracer == tracer && this.reserved == reserved
      ensures state == STOPPED && run == [] && !isSigTrapExpected
      ensures DirectFile() == File(tracer.tracee.regs, tracer.tracee.dr6)
    {
      this.tracer, this.reserved := tracer, reserved;
      this.state, this.regSync, this.regs, this.dr6 := STOPPED, OLD, regs, 0;
      this.futureRegs, this.futureDr6, this.stepping := None, None, None;
      this.isSigTrapExpected, this.run := false, [];
      new;
      origin := Snapshot();
    }

    /** Anything but the client runs for a while. */
    method Interleave()
      requires Valid()
      modifies this`regs, this`run, tracer
      ensures Valid() && Idled(origin, old(run), run, reserved)
      ensures Rested(old(Snapshot()), Snapshot(), reserved) && DirectFile() == old(DirectFile()) && old(run) <= run
    {
      hide Idled, Exec, RunOk, Background, Rested, Kept;
      var more: nat := *;
      StartIdle();
      while more > 0
        invariant Valid() && Idled(origin, old(run), run, reserved)
      {
        ghost var before := run;
        BackgroundStep();
        if run != before {
          IdledSnoc(origin, old(run), before, run[|run| - 1], reserved);
        }
        more := more - 1;
      }
      IdleRests(origin, old(run), run, reserved);
    }

    ghost method StartIdle()
      requires Valid()
      ensures Idled(origin, run, run, reserved)
    {
    }

    method BackgroundStep()
      requires Valid()
      modifies this`regs, this`run, tracer
      ensures Valid()
      ensures run == old(run) || (|run| == |old(run)| + 1 && run == old(run) + [run[|run| - 1]]
                                  && Background(old(Snapshot()), run[|run| - 1], reserved))
    {
      hide Exec, RunOk;
      var choice: nat := *;
      var outcome: Sight := *;
      if !Spares(tracer.tracee.mem, outcome.mem, reserved) {
        outcome := tracer.tracee;
      }
      if choice == 0 && tracer.commands != [] {
        WorkerIteration(outcome);
      } else if choice == 1 && tracer.status.Running? {
        Stop(outcome);
      } else {
        var c: Command := *;
        if Foreign(c) && Clear(c, reserved) {
          var future := tracer.CommandPTrace(c);
          Record(Produce(c));
        }
      }
    }

    /** The running tracee stops. */
    method Stop(sight: Sight)
      requires Valid() && tracer.status.Running? && Spares(tracer.tracee.mem, sight.mem, reserved)
      modifies this`run, tracer`tracee, tracer`status
      ensures Valid() && run == old(run) + [Trap(sight)]
    {
      hide Exec, RunOk;
      tracer.tracee, tracer.status := sight, Trapped;
      Record(Trap(sight));
    }

    method WorkerIteration(outcome: Sight)
      requires Valid() && tracer.commands != [] && Spares(tracer.tracee.mem, outcome.mem, reserved)
      modifies this`regs, this`run, tracer
      ensures Valid() && run == old(run) + [Worker(outcome)]
      ensures tracer.executed == old(tracer.executed) + 1 && tracer.log == old(tracer.log)
      ensures Background(old(Snapshot()), Worker(outcome), reserved)
    {
      tracer.RunFront(this, outcome);
      Record(Worker(outcome));
    }

    /** The fields have changed, from where the run has led, as `l` says. */
    ghost predicate Recordable(l: Label)
      reads this, tracer
    {
      tracer.Valid() && Init(origin) && RunOk(origin, run) && Goes(Exec(origin, run), l, Snapshot())
    }

    /** What `l` makes of the direct register file. */
    ghost function Edited(l: Label): File
      requires RunOk(origin, run)
      reads this
    {
      EditFrom(Exec(origin, run), Direct(origin, run), l)
    }

    ghost method Record(l: Label)
      requires Recordable(l)
      modifies this`run
      ensures Valid() && run == old(run) + [l]
      ensures DirectFile() == old(Edited(l))
    {
      hide Exec, RunOk, Enabled, Apply;
      assert DropLast(run + [l]) == run;
      ExecSnoc(origin, run, l);
      run := run + [l];
    }

    method SetState(state: ThreadState)
      modifies this`state, this`regSync
      ensures Snapshot() == WithState(old(Snapshot()), state)
      ensures this.state == state && regSync == OLD
    {
      regSync := OLD;
      this.state := state;
    }

    method ReadRegisters() returns (ghost a: seq<Command>)
      requires Valid() && stepping.None?
      modifies this`futureRegs, this`futureDr6, this`regSync, this`run, tracer
      ensures Valid() && run == old(run) + [Read(a)] && DirectFile() == old(DirectFile())
      ensures Rested(old(Snapshot()), Snapshot(), reserved)
      ensures state == STOPPED ==> regSync != OLD
      ensures regSync == NEW ==> old(regSync) == NEW
      ensures state != STOPPED ==> futureDr6 == old(futureDr6)
    {
      hide Exec, RunOk, Rested, Ptrace.ReadRegisters;
      a := QueueReads();
      ReadRests(old(Snapshot()), a, reserved);
      Record(Read(a));
    }

    method QueueReads() returns (ghost a: seq<Command>)
      requires tracer.Valid()
      modifies this`futureRegs, this`futureDr6, this`regSync, tracer`commands, tracer`issued, tracer`log
      ensures tracer.Valid() && AllForeign(a) && AllClear(a, reserved)
      ensures Snapshot() == Ptrace.ReadRegisters(old(Snapshot()), a)
      ensures if state == STOPPED && old(regSync) == OLD then
                && tracer.log == old(tracer.log) + [PeekDr6] + a + [GetRegs] && regSync == SYNC
                && futureDr6 == Some(|old(tracer.log)|) && futureRegs == Some(|tracer.log| - 1)
              else tracer.log == old(tracer.log) && regSync == old(regSync)
      ensures state == STOPPED ==> regSync != OLD
      ensures regSync == NEW ==> old(regSync) == NEW
      ensures state != STOPPED ==> futureDr6 == old(futureDr6)
    {
      a := [];
      if state == STOPPED && regSync == OLD {
        var future := tracer.CommandPTrace(PeekDr6);
        futureDr6 := Some(future);
        a := tracer.Others(reserved);
        future := tracer.CommandPTrace(GetRegs);
        futureRegs := Some(future);
        regSync := SYNC;
      }
      assert old(Snapshot()).log + [] == old(Snapshot()).log;
    }

    /** Blocks until the command of ticket `future` has run. */
    method Await(future: nat)
      requires Valid() && future < |tracer.log|
      modifies this`regs, this`run, tracer
      ensures Valid() && Idled(origin, old(run), run, reserved) && future < tracer.executed
      ensures Rested(old(Snapshot()), Snapshot(), reserved) && DirectFile() == old(DirectFile()) && old(run) <= run
    {
      hide Idled, Exec, RunOk, Background, Kept;
      Interleave();
      assert old(tracer.log) <= tracer.log by {
        RestedGrows(old(Snapshot()), Snapshot(), reserved);
      }
      while tracer.executed <= future
        invariant Valid() && Idled(origin, old(run), run, reserved)
        invariant future < |tracer.log|
        decreases future - tracer.executed
      {
        ghost var before := run;
        var outcome: Sight := *;
        if !Spares(tracer.tracee.mem, outcome.mem, reserved) {
          outcome := tracer.tracee;
        }
        WorkerIteration(outcome);
        IdledSnoc(origin, old(run), before, Worker(outcome), reserved);
      }
      IdleRests(origin, old(run), run, reserved);
    }

    /** SpiedThread::getRip. */
    method GetRip() returns (rip: Word64)
      requires Valid() && stepping.None?
      modifies this`futureRegs, this`futureDr6, this`regSync, this`regs, this`run, tracer
      ensures Valid() && DirectFile() == old(DirectFile())
      ensures Rested(old(Snapshot()), Snapshot(), reserved)
      ensures state == STOPPED ==> regSync != OLD && futureRegs.None?
      ensures regSync == NEW ==> old(regSync) == NEW
      ensures Settled(Snapshot()) ==> rip == DirectFile().regs.rip
      ensures old(AtRest(Snapshot())) ==> AtRest(Snapshot())
    {
      hide Exec, RunOk, Idled, Rested, Kept;
      AwaitRead();
      ReadsSeeDirectFile(origin, run);
      RestedSettled(old(Snapshot()), Snapshot(), reserved);
      rip := regs.rip;
    }

    /** The wait that getRip and jump share: readRegisters, then the future if it is valid. */
    method AwaitRead()
      requires Valid() && stepping.None?
      modifies this`futureRegs, this`futureDr6, this`regSync, this`regs, this`run, tracer
      ensures Valid() && DirectFile() == old(DirectFile())
      ensures Rested(old(Snapshot()), Snapshot(), reserved)
      ensures futureRegs.None? && (state == STOPPED ==> regSync != OLD)
      ensures regSync == NEW ==> old(regSync) == NEW
    {
      hide Exec, RunOk, Idled, Rested, Kept;
      ghost var a := ReadRegisters();
      ghost var s1 := Snapshot();
      Interleave();
      RestedTrans(old(Snapshot()), s1, Snapshot(), reserved);
      if futureRegs.Some? {
        ghost var s2 := Snapshot();
        CollectRegs();
        RestedTrans(old(Snapshot()), s2, Snapshot(), reserved);
      }
    }

    /** `_futureRegs.get()`. */
    method CollectRegs()
      requires Valid() && futureRegs.Some?
      modifies this`futureRegs, this`regs, this`run, tracer
      ensures Valid() && DirectFile() == old(DirectFile())
      ensures Rested(old(Snapshot()), Snapshot(), reserved) && futureRegs.None?
    {
      hide Exec, RunOk, Idled, Rested, Kept;
      RunKeepsInv(origin, run);
      Await(futureRegs.value);
      ghost var s := Snapshot();
      futureRegs := None;
      Record(AwaitRegs);
      AppendRests(s, Snapshot(), [], reserved);
      RestedTrans(old(Snapshot()), s, Snapshot(), reserved);
    }

    /** SpiedThread::jump, which is called only while the thread is stopped. */
    method Jump(addr: Word64)
      requires Valid() && stepping.None? && state == STOPPED
      modifies this`futureRegs, this`futureDr6, this`regSync, this`regs, this`run, tracer
      ensures Valid() && DirectFile() == old(DirectFile()).(regs := old(DirectFile()).regs.(rip := addr))
      ensures Rested(old(Snapshot()), Snapshot(), reserved) && regs.rip == addr && regSync == NEW
      ensures old(AtRest(Snapshot())) ==> AtRest(Snapshot())
    {
      hide Exec, RunOk, Idled, Rested, Kept;
      AwaitRead();
      ghost var s1 := Snapshot();
      regs := regs.(rip := addr);
      regSync := NEW;
      Record(Ptrace.Label.Jump(addr));
      AppendRests(s1, Snapshot(), [], reserved);
      RestedTrans(old(Snapshot()), s1, Snapshot(), reserved);
      RestedSettled(old(Snapshot()), Snapshot(), reserved);
    }

    /** SpiedThread::getDr6. */
    method GetDr6() returns (value: bv64)
      requires Valid() && stepping.None?
      modifies this`futureRegs, this`futureDr6, this`dr6, this`regSync, this`regs, this`run, tracer
      ensures Valid() && DirectFile() == old(DirectFile()) && old(run) <= run
      ensures Rested(old(Snapshot()), Snapshot(), reserved)
      ensures futureDr6.None? && value == dr6 && (state == STOPPED ==> regSync != OLD)
      ensures regSync == NEW ==> old(regSync) == NEW
      ensures Settled(Snapshot()) ==> value == DirectFile().dr6
      ensures old(state != STOPPED && futureDr6.None?) ==> value == old(dr6)
      ensures old(AtRest(Snapshot())) ==> AtRest(Snapshot())
    {
      hide Exec, RunOk, Idled, Rested, Kept, Direct, AtRest;
      RunKeepsInv(origin, run);
      ghost var a := ReadRegisters();
      ghost var s1 := Snapshot();
      Interleave();
      RestedTrans(old(Snapshot()), s1, Snapshot(), reserved);
      if futureDr6.Some? {
        ghost var s2 := Snapshot();
        CollectDr6();
        RestedTrans(old(Snapshot()), s2, Snapshot(), reserved);
      }
      ReadsSeeDirectFile(origin, run);
      RestedSettled(old(Snapshot()), Snapshot(), reserved);
      value := dr6;
    }

    /** `_dr6 = _futureDr6.get().first`. */
    method CollectDr6()
      requires Valid() && futureDr6.Some?
      modifies this`futureDr6, this`dr6, this`regs, this`run, tracer
      ensures Valid() && DirectFile() == old(DirectFile()) && old(run) <= run
      ensures Rested(old(Snapshot()), Snapshot(), reserved) && futureDr6.None?
    {
      hide Exec, RunOk, Idled, Rested, Kept, Direct;
      RunKeepsInv(origin, run);
      var future := futureDr6.value;
      Await(future);
      ghost var s := Snapshot();
      dr6 := if future in tracer.promises then tracer.promises[future] else ERROR_VALUE;
      futureDr6 := None;
      Record(AwaitDr6);
      AppendRests(s, Snapshot(), [], reserved);
      RestedTrans(old(Snapshot()), s, Snapshot(), reserved);
    }

    /** SpiedThread::setDr6. */
    method SetDr6(value: bv64)
      requires Valid() && stepping.None?
      modifies this`futureRegs, this`futureDr6, this`dr6, this`regSync, this`regs, this`run, tracer
      ensures Valid() && old(run) <= run
      ensures DirectFile() == if state == STOPPED then old(DirectFile()).(dr6 := value) else old(DirectFile())
      ensures Rested(old(Snapshot()), Snapshot(), reserved) && dr6 == value && regSync == NEW
      ensures old(AtRest(Snapshot())) ==> AtRest(Snapshot())
    {
      hide Exec, RunOk, Idled, Rested, Kept;
      hide Direct, AtRest;
      var previous := GetDr6();
      ghost var s1 := Snapshot();
      AssignDr6(value);
      RestedTrans(old(Snapshot()), s1, Snapshot(), reserved);
      RestedSettled(old(Snapshot()), Snapshot(), reserved);
    }

    /** The assignments of setDr6. */
    method AssignDr6(value: bv64)
      requires Valid() && stepping.None? && futureDr6.None? && (state == STOPPED ==> regSync != OLD)
      modifies this`dr6, this`regSync, this`run
      ensures dr6 == value && regSync == NEW
      ensures Valid() && old(run) <= run && Rested(old(Snapshot()), Snapshot(), reserved)
      ensures DirectFile() == if state == STOPPED then old(DirectFile()).(dr6 := value) else old(DirectFile())
    {
      hide Exec, RunOk, Rested, Kept;
      ghost var s := Snapshot();
      dr6 := value;
      regSync := NEW;
      Record(Ptrace.Label.SetDr6(value));
      AppendRests(s, Snapshot(), [], reserved);
    }

    /** SpiedThread::writeRegisters, with the state mutex held. */
    method WriteRegisters() returns (ghost a: seq<Command>)
      requires tracer.Valid()
      modifies this`regSync, tracer`commands, tracer`issued, tracer`log
      ensures tracer.Valid() && AllForeign(a) && AllClear(a, reserved)
      ensures regSync == if old(regSync) == NEW then SYNC else old(regSync)
      ensures Snapshot() == Ptrace.WriteRegisters(old(Snapshot()), a)
      ensures tracer.log == old(tracer.log)
                            + (if old(regSync) == NEW && futureRegs.None? then [SetRegs] else [])
                            + a
                            + (if old(regSync) == NEW && futureDr6.None? then [PokeDr6(dr6)] else [])
    {
      a := [];
      if regSync == NEW {
        if futureRegs.None? {
          var future := tracer.CommandPTrace(SetRegs);
        }
        a := tracer.Others(reserved);
        if futureDr6.None? {
          var future := tracer.CommandPTrace(PokeDr6(dr6));
        }
        regSync := SYNC;
      }
    }

    /** SpiedThread::resume. `ticket` is the PTRACE_CONT and `sight` what it will find. */
    method Resume(signum: nat) returns (ticket: nat, ghost sight: Sight)
      requires Valid() && stepping.None?
      modifies this`state, this`regSync, this`run, tracer`commands, tracer`issued, tracer`log
      ensures regSync == OLD
      ensures Valid() && DirectFile() == old(DirectFile()) && state == CONTINUED && old(run) <= run
      ensures Kept(old(Snapshot()), Snapshot(), reserved) && Added(old(Snapshot()), Snapshot(), [Cont(signum)])
      ensures |old(tracer.log)| <= ticket == |tracer.log| - 1 && tracer.log[ticket] == Cont(signum)
      ensures NextGo(Snapshot(), ticket) <==> old(NoGo(Queue(Snapshot())) && !tracer.status.Running?)
      ensures old(NoGo(Queue(Snapshot())) && !tracer.status.Running?) ==>
                && ReleasedAs(Snapshot(), ticket, sight)
                && Spares(old(Eventual(Snapshot())), sight.mem, reserved)
                && (old(tracer.status) == Reported ==> File(sight.regs, sight.dr6) == DirectFile())
                && (old(regSync) != NEW ==> sight.regs == old(tracer.tracee.regs))
    {
      hide Exec, RunOk, Kept, ReleasedAs, Settled, Gos;
      ghost var s := Snapshot();
      ghost var a, b;
      ticket, sight, a, b := Depart(Cont(signum));
      ghost var s1 := Snapshot();
      SetState(CONTINUED);
      Record(Ptrace.Label.Resume(signum, a, b));
      TracerDecides(s, s1, Snapshot(), ticket, sight, reserved);
    }

    /** The write-back and the command after it, which resume and singleStep share. */
    method Depart(c: Command)
        returns (ticket: nat, ghost sight: Sight, ghost a: seq<Command>, ghost b: seq<Command>)
      requires Valid() && stepping.None? && Go(c)
      modifies this`regSync, tracer`commands, tracer`issued, tracer`log
      ensures tracer.Valid() && Snapshot() == LetGo(old(Snapshot()), a, b, c) && AllForeign(a) && AllForeign(b)
      ensures ticket == |tracer.log| - 1 && |old(tracer.log)| <= ticket && tracer.log[ticket] == c && regSync != NEW
      ensures NextGo(Snapshot(), ticket) <==> old(NoGo(Queue(Snapshot())) && !tracer.status.Running?)
      ensures Kept(old(Snapshot()), Snapshot(), reserved) && Added(old(Snapshot()), Snapshot(), [c])
      ensures old(NoGo(Queue(Snapshot())) && !tracer.status.Running?) ==>
                && ReleasedAs(Snapshot(), ticket, sight)
                && Spares(old(Eventual(Snapshot())), sight.mem, reserved)
                && (old(tracer.status) == Reported ==> File(sight.regs, sight.dr6) == old(DirectFile()))
                && (old(regSync) != NEW ==> sight.regs == old(tracer.tracee.regs))
    {
      hide Exec, RunOk, Kept, Ahead, Added;
      RunKeepsInv(origin, run);
      DirectComparesWithDue(origin, run);
      ghost var s, file := Snapshot(), Due(origin, run);
      a := WriteRegisters();
      b := tracer.Others(reserved);
      ticket := tracer.CommandPTrace(c);
      ghost var s1 := Snapshot();
      assert s1 == LetGo(s, a, b, c);
      LetGoKeeps(s, a, b, c, reserved);
      LetGoAdds(s, a, b, c);
      sight := Ahead(s1).sight;
      if NoGo(Queue(s)) && !s.status.Running? {
        LetGoReleases(s, file, a, b, c, reserved);
      }
      if NextGo(s1, ticket) {
        NextGoIsFirst(s, s1, ticket);
      }
    }

    /** SpiedThread::singleStep. `ticket` is the PTRACE_SINGLESTEP and `sight` what it found. In state
        STOPPED the timed wait returns at once. */
    method SingleStep() returns (success: bool, ghost ticket: nat, ghost sight: Sight)
      requires Valid() && stepping.None?
      modifies this, tracer
      ensures Valid() && stepping.None? && Kept(old(Snapshot()), Snapshot(), reserved)
      ensures success == (state == STOPPED) && (!success ==> !isSigTrapExpected)
      ensures |old(tracer.log)| <= ticket < tracer.executed && tracer.log[ticket] == Command.SingleStep
      ensures old(state) == STOPPED ==>
                Added(old(Snapshot()), Snapshot(), [Command.SingleStep])
                && state == STOPPED && isSigTrapExpected && regSync != NEW && DirectFile() == old(DirectFile())
      ensures old(NoGo(tracer.commands) && !tracer.status.Running?) ==>
                && ReleasedAs(Snapshot(), ticket, sight) && ticket in tracer.stepped
                && Spares(old(Eventual(Snapshot())), sight.mem, reserved)
                && (old(tracer.status) == Reported ==> File(sight.regs, sight.dr6) == old(DirectFile()))
                && (old(state) == STOPPED ==>
                      && tracer.status == Trapped && NoGo(tracer.commands)
                      && tracer.tracee.regs == tracer.stepped[ticket].regs)
    {
      hide Exec, RunOk, Kept, Gos, ReleasedAs, Eventual, Spares, Direct;
      ticket, sight := TakeStep();
      ghost var s := Snapshot();
      if state != STOPPED {
        AwaitStop();
        KeptGrows(s, Snapshot(), reserved);
        StepIsPast(old(Snapshot()), s, Snapshot(), ticket, sight, reserved);
      }
      success := state == STOPPED;
      if !success {
        isSigTrapExpected := false;
      }
    }

    /** singleStep up to the timed wait. */
    method TakeStep() returns (ticket: nat, ghost sight: Sight)
      requires Valid() && stepping.None?
      modifies this`regs, this`regSync, this`isSigTrapExpected, this`stepping, this`run, tracer
      ensures Valid() && stepping.None? && Kept(old(Snapshot()), Snapshot(), reserved)
      ensures isSigTrapExpected && regSync != NEW && DirectFile() == old(DirectFile())
      ensures |old(tracer.log)| <= ticket < tracer.executed && tracer.log[ticket] == Command.SingleStep
      ensures Added(old(Snapshot()), Snapshot(), [Command.SingleStep])
      ensures old(NoGo(tracer.commands) && !tracer.status.Running?) ==>
                && ReleasedAs(Snapshot(), ticket, sight) && ticket in tracer.stepped
                && Spares(old(Eventual(Snapshot())), sight.mem, reserved)
                && (old(tracer.status) == Reported ==> File(sight.regs, sight.dr6) == old(DirectFile()))
                && tracer.status == Trapped && NoGo(tracer.commands)
                && tracer.tracee.regs == tracer.stepped[ticket].regs
    {
      hide Exec, RunOk, Kept, Added, Ahead, Idled, Rested, ReleasedAs, StepTakenOnce, Eventual, Spares, Direct;
      ticket, sight := BeginStep();
      ghost var s2 := Snapshot();
      AwaitStep(ticket, sight);
      KeptTrans(old(Snapshot()), s2, Snapshot(), reserved);
      AddedBeside(old(Snapshot()), s2, Snapshot(), [Command.SingleStep]);
      ghost var s3 := Snapshot();
      EndStep();
      SameLogAdds(old(Snapshot()), s3, Snapshot(), [Command.SingleStep]);
      TracerDecides(old(Snapshot()), s3, Snapshot(), ticket, sight, reserved);
    }

    ghost method EndStep()
      requires Valid() && stepping.Some? && stepping.value < tracer.executed
      modifies this`stepping, this`run
      ensures Valid() && stepping.None? && DirectFile() == old(DirectFile())
    {
      hide Exec, RunOk;
      stepping := None;
      Record(StepEnd);
    }

    /** The head of singleStep, up to its wait. */
    method BeginStep() returns (ticket: nat, ghost sight: Sight)
      requires Valid() && stepping.None?
      modifies this`regSync, this`isSigTrapExpected, this`stepping, this`run,
               tracer`commands, tracer`issued, tracer`log
      ensures Valid() && DirectFile() == old(DirectFile())
      ensures isSigTrapExpected && regSync != NEW && stepping == Some(ticket)
      ensures Kept(old(Snapshot()), Snapshot(), reserved)
      ensures |old(tracer.log)| <= ticket < |tracer.log| && tracer.log[ticket] == Command.SingleStep
      ensures Added(old(Snapshot()), Snapshot(), [Command.SingleStep])
      ensures old(NoGo(tracer.commands) && !tracer.status.Running?) ==>
                && StepTakenOnce(Snapshot(), ticket) && ReleasedAs(Snapshot(), ticket, sight)
                && Spares(old(Eventual(Snapshot())), sight.mem, reserved)
                && (old(tracer.status) == Reported ==> File(sight.regs, sight.dr6) == DirectFile())
    {
      hide Exec, RunOk, Kept, Added, Eventual, Spares, ReleasedAs, StepTakenOnce, LetGo, NextGo, Direct;
      ghost var s := Snapshot();
      ghost var a, b;
      isSigTrapExpected := true;
      ticket, sight, a, b := Depart(Command.SingleStep);
      ghost var s1 := Snapshot();
      stepping := Some(ticket);
      Record(StepBegin(a, b));
      TracerDecides(s, s1, Snapshot(), ticket, sight, reserved);
      SameLogAdds(s, s1, Snapshot(), [Command.SingleStep]);
      StepIsToCome(Snapshot(), ticket, sight);
    }

    method AwaitStep(ticket: nat, ghost sight: Sight)
      requires Valid() && ticket < |tracer.log|
      modifies this`regs, this`run, tracer
      ensures Valid() && DirectFile() == old(DirectFile()) && Kept(old(Snapshot()), Snapshot(), reserved)
      ensures ticket < tracer.executed && old(tracer.log) <= tracer.log && Added(old(Snapshot()), Snapshot(), [])
      ensures old(StepTakenOnce(Snapshot(), ticket) && ReleasedAs(Snapshot(), ticket, sight)) ==>
                && ReleasedAs(Snapshot(), ticket, sight)
                && tracer.status == Trapped && NoGo(tracer.commands)
                && ticket in tracer.stepped && tracer.tracee.regs == tracer.stepped[ticket].regs
    {
      hide Exec, RunOk, Kept, Idled, ReleasedAs;
      Await(ticket);
      RunKeepsInv(origin, run);
      if old(StepTakenOnce(Snapshot(), ticket) && ReleasedAs(Snapshot(), ticket, sight)) {
        IdledKeepsStep(origin, old(run), run, ticket, reserved);
        IdledKeepsReleasedAs(origin, old(run), run, ticket, sight, reserved);
      }
    }

    /** The timed wait of singleStep, which gives the state mutex away: stops are reported and handled
        while it lasts, and it may end before one is. */
    method AwaitStop()
      requires Valid() && stepping.None?
      modifies this, tracer
      ensures Valid() && stepping.None? && Kept(old(Snapshot()), Snapshot(), reserved)
    {
      hide Exec, RunOk, Kept, Rested;
      var patience: nat := *;
      KeptRefl(Snapshot(), reserved);
      while state != STOPPED && patience > 0
        invariant Valid() && stepping.None? && Kept(old(Snapshot()), Snapshot(), reserved)
        decreases patience
      {
        ghost var s := Snapshot();
        Interleave();
        RestedIsKept(s, Snapshot(), reserved);
        KeptTrans(old(Snapshot()), s, Snapshot(), reserved);
        var reported: bool := *;
        if reported && tracer.status != Reported {
          ghost var s1 := Snapshot();
          var signal: nat, ptraceEvent: nat := *, *;
          var handled, hit;
          ghost var seen;
          ghost var go, atGo;
          handled, hit, seen, go, atGo := HandleStop(signal, ptraceEvent);
          KeptTrans(old(Snapshot()), s1, Snapshot(), reserved);
        }
        patience := patience - 1;
      }
    }

    /** SpiedThread::handleEvent for a stop, just before its hit() is called: `hit` is the watchpoint
        whose callback is queued, and `seen` the value of DR6 that it has read. When it resumes the
        thread, `go` is the PTRACE_CONT and `atGo` what that will find. */
    method HandleStop(signal: nat, ptraceEvent: nat)
        returns (handled: bool, hit: Option<nat>, ghost seen: bv64, ghost go: nat, ghost atGo: Sight)
      requires Valid() && stepping.None? && tracer.status != Reported
      modifies this`futureRegs, this`futureDr6, this`dr6, this`regSync, this`regs, this`run,
               this`state, this`isSigTrapExpected, tracer
      ensures Valid() && stepping.None? && Kept(old(Snapshot()), Snapshot(), reserved)
      ensures Outcome(handled, hit, isSigTrapExpected)
              == HandleEvent(Stopped(signal, ptraceEvent), old(isSigTrapExpected), seen)
      ensures state == if Resumes(signal, ptraceEvent) then CONTINUED else STOPPED
      // a resumption delivers the signal, and a clone event has none
      ensures Added(old(Snapshot()), Snapshot(), Answer(signal, ptraceEvent))
      ensures old(InTime(Snapshot())) && Resumes(signal, ptraceEvent) ==>
                && |old(tracer.log)| <= go < |tracer.log| && Go(tracer.log[go]) && ReleasedAs(Snapshot(), go, atGo)
                && atGo.regs == old(tracer.tracee.regs) && atGo.dr6 == old(tracer.tracee.dr6)
      ensures signal == SIGTRAP && ptraceEvent == PTRACE_EVENT_CLONE && old(state != STOPPED && futureDr6.None?) ==>
                seen == old(dr6)
      ensures old(InTime(Snapshot())) && !Resumes(signal, ptraceEvent) ==>
                && AtRest(Snapshot()) && (signal == SIGTRAP ==> seen == old(tracer.tracee.dr6))
                && DirectFile() == File(old(tracer.tracee.regs), Acknowledged(old(tracer.tracee.dr6), hit))
    {
      hide Exec, RunOk, Kept, Flagged, Cleared, Triggered, InTime, Direct, AtRest, Settled, Added, ReleasedAs;
      ghost var s := Snapshot();
      Report();
      ghost var s1 := Snapshot();
      handled, hit, seen, go, atGo := React(signal, ptraceEvent);
      KeptTrans(s, s1, Snapshot(), reserved);
      KeptGrows(s, s1, reserved);
      AddedBeside(s, s1, Snapshot(), Answer(signal, ptraceEvent));
    }

    /** What handleEvent does once a stop has been reported. */
    method React(signal: nat, ptraceEvent: nat)
        returns (handled: bool, hit: Option<nat>, ghost seen: bv64, ghost go: nat, ghost atGo: Sight)
      requires Valid() && stepping.None? && state == STOPPED
      modifies this`futureRegs, this`futureDr6, this`dr6, this`regSync, this`regs, this`run,
               this`state, this`isSigTrapExpected, tracer
      ensures Valid() && stepping.None? && Kept(old(Snapshot()), Snapshot(), reserved)
      ensures Outcome(handled, hit, isSigTrapExpected)
              == HandleEvent(Stopped(signal, ptraceEvent), old(isSigTrapExpected), seen)
      ensures state == if Resumes(signal, ptraceEvent) then CONTINUED else STOPPED
      ensures Added(old(Snapshot()), Snapshot(), Answer(signal, ptraceEvent))
      ensures old(AtRest(Snapshot())) && Resumes(signal, ptraceEvent) ==>
                && |old(tracer.log)| <= go < |tracer.log| && Go(tracer.log[go]) && ReleasedAs(Snapshot(), go, atGo)
                && File(atGo.regs, atGo.dr6) == old(DirectFile())
      ensures signal == SIGTRAP && ptraceEvent == PTRACE_EVENT_CLONE && old(futureDr6).None? ==> seen == old(dr6)
      ensures old(AtRest(Snapshot())) && !Resumes(signal, ptraceEvent) ==>
                && AtRest(Snapshot()) && (signal == SIGTRAP ==> seen == old(DirectFile()).dr6)
                && DirectFile() == old(DirectFile()).(dr6 := Acknowledged(old(DirectFile()).dr6, hit))
    {
      hide Exec, RunOk, Kept, Rested, Flagged, Cleared, Triggered, Direct, AtRest, Added, ReleasedAs;
      handled, hit, seen, go := false, None, 0, 0;
      atGo := tracer.tracee;
      ghost var s := Snapshot();
      KeptRefl(s, reserved);
      AddedQuiet(s, s, []);
      if signal == SIGTRAP {
        handled, hit, seen, go, atGo := HandleTrap(ptraceEvent);
      } else if signal == SIGSEGV {
        var rip := GetRip();    // backtrace
        RestedIsKept(s, Snapshot(), reserved);
        RestedAddsNothing(s, Snapshot(), reserved);
      } else if signal == SIGSTOP {
      } else {
        handled, go, atGo := PassOn(signal);
      }
    }

    /** What handleEvent does about a signal it does not know. */
    method PassOn(signal: nat) returns (handled: bool, ghost go: nat, ghost atGo: Sight)
      requires Valid() && stepping.None? && state == STOPPED
      modifies this`regSync, this`run, this`state, tracer`commands, tracer`issued, tracer`log
      ensures Valid() && stepping.None? && state == CONTINUED && handled && old(run) <= run
      ensures Kept(old(Snapshot()), Snapshot(), reserved) && Added(old(Snapshot()), Snapshot(), [Cont(signal)])
      ensures old(AtRest(Snapshot())) ==>
                && |old(tracer.log)| <= go < |tracer.log| && Go(tracer.log[go]) && ReleasedAs(Snapshot(), go, atGo)
                && File(atGo.regs, atGo.dr6) == old(DirectFile())
    {
      hide Exec, RunOk, Kept, Direct, Added, ReleasedAs, Spares, Eventual;
      var ticket;
      ticket, atGo := Resume(signal);
      go := ticket;
      handled := true;
    }

    /** What handleEvent does about a SIGTRAP. */
    method HandleTrap(ptraceEvent: nat)
        returns (handled: bool, hit: Option<nat>, ghost seen: bv64, ghost go: nat, ghost atGo: Sight)
      requires Valid() && stepping.None? && state == STOPPED
      modifies this`futureRegs, this`futureDr6, this`dr6, this`regSync, this`regs, this`run,
               this`state, this`isSigTrapExpected, tracer
      ensures Valid() && stepping.None? && Kept(old(Snapshot()), Snapshot(), reserved)
      ensures Outcome(handled, hit, isSigTrapExpected)
              == HandleEvent(Stopped(SIGTRAP, ptraceEvent), old(isSigTrapExpected), seen)
      ensures state == if Resumes(SIGTRAP, ptraceEvent) then CONTINUED else STOPPED
      ensures Added(old(Snapshot()), Snapshot(), if Resumes(SIGTRAP, ptraceEvent) then [Cont(0)] else [])
      ensures old(AtRest(Snapshot())) && Resumes(SIGTRAP, ptraceEvent) ==>
                && |old(tracer.log)| <= go < |tracer.log| && Go(tracer.log[go]) && ReleasedAs(Snapshot(), go, atGo)
                && File(atGo.regs, atGo.dr6) == old(DirectFile())
      ensures ptraceEvent == PTRACE_EVENT_CLONE && old(futureDr6).None? ==> seen == old(dr6)
      ensures old(AtRest(Snapshot())) && !Resumes(SIGTRAP, ptraceEvent) ==>
                && AtRest(Snapshot()) && seen == old(DirectFile()).dr6
                && DirectFile() == old(DirectFile()).(dr6 := Acknowledged(seen, hit))
    {
      hide Exec, RunOk, Kept, Flagged, Cleared, Triggered, Direct, AtRest, Added, ReleasedAs;
      handled, go, atGo := NoticeTrap(ptraceEvent);
      ghost var s, middle := Snapshot(), run;
      hit, seen := ScanWatchPoints();
      handled := handled || hit.Some?;
      KeptTrans(old(Snapshot()), s, Snapshot(), reserved);
      KeptGrows(s, Snapshot(), reserved);
      AddedBeside(old(Snapshot()), s, Snapshot(), if Resumes(SIGTRAP, ptraceEvent) then [Cont(0)] else []);
      if old(AtRest(Snapshot())) && Resumes(SIGTRAP, ptraceEvent) {
        assert run == middle + run[|middle|..];
        RunKeepsReleasedAs(origin, middle, run[|middle|..], go, atGo);
      }
    }

    /** The end of an expected step, and the resumption after a clone event. */
    method NoticeTrap(ptraceEvent: nat) returns (handled: bool, ghost go: nat, ghost atGo: Sight)
      requires Valid() && stepping.None? && state == STOPPED
      modifies this`regSync, this`run, this`state, this`isSigTrapExpected, tracer`commands, tracer`issued, tracer`log
      ensures Valid() && stepping.None? && Kept(old(Snapshot()), Snapshot(), reserved)
      ensures handled == (old(isSigTrapExpected) || ptraceEvent == PTRACE_EVENT_CLONE) && !isSigTrapExpected
      ensures Added(old(Snapshot()), Snapshot(), if ptraceEvent == PTRACE_EVENT_CLONE then [Cont(0)] else [])
      ensures old(AtRest(Snapshot())) && ptraceEvent == PTRACE_EVENT_CLONE ==>
                && |old(tracer.log)| <= go < |tracer.log| && Go(tracer.log[go]) && ReleasedAs(Snapshot(), go, atGo)
                && File(atGo.regs, atGo.dr6) == old(DirectFile())
      ensures if ptraceEvent == PTRACE_EVENT_CLONE then state == CONTINUED
              else Snapshot() == old(Snapshot()) && DirectFile() == old(DirectFile())
    {
      hide Exec, RunOk, Kept, Direct, Added, ReleasedAs;
      handled, go := false, 0;
      atGo := tracer.tracee;
      KeptRefl(Snapshot(), reserved);
      AddedQuiet(Snapshot(), Snapshot(), []);
      if isSigTrapExpected {
        isSigTrapExpected := false;
        handled := true;
      }
      if ptraceEvent == PTRACE_EVENT_CLONE {
        handled, go, atGo := PassOn(0);
      }
    }

    /** SpiedThread::handleEvent for an event other than a stop: the thread goes on, or is gone. */
    method HandleChange(event: ThreadEvent) returns (handled: bool)
      requires Valid() && stepping.None? && tracer.status != Reported
      requires event.Continued? || event.Exited? || event.Terminated?
      modifies this`futureRegs, this`futureDr6, this`regSync, this`regs, this`run, this`state, tracer
      ensures Valid() && Kept(old(Snapshot()), Snapshot(), reserved) && Added(old(Snapshot()), Snapshot(), [])
      ensures handled == HandleEvent(event, isSigTrapExpected, dr6).handled && regSync == OLD
      ensures state == match event case Continued => CONTINUED case Exited => EXITED case _ => TERMINATED
    {
      hide Exec, RunOk, Kept, Idled, Rested, Direct, Added;
      ghost var s := Snapshot();
      ghost var a := ReadRegisters();
      ghost var s1 := Snapshot();
      Interleave();
      RestedTrans(s, s1, Snapshot(), reserved);
      RestedInTime(s, Snapshot(), reserved);
      RestedAddsNothing(s, Snapshot(), reserved);
      ghost var s2 := Snapshot();
      var newState := if event.Continued? then CONTINUED else if event.Exited? then EXITED else TERMINATED;
      SetState(newState);
      Record(ReportOther(newState));
      KeptThroughReport(s, s2, Snapshot(), reserved);
      SameLogAdds(s, s2, Snapshot(), []);
      handled := true;
    }

    /** readRegisters and setState(STOPPED) at the head of handleEvent. */
    method Report()
      requires Valid() && stepping.None? && tracer.status != Reported
      modifies this`futureRegs, this`futureDr6, this`regSync, this`regs, this`run, this`state, tracer
      ensures Valid() && state == STOPPED && stepping.None? && Kept(old(Snapshot()), Snapshot(), reserved)
      ensures Added(old(Snapshot()), Snapshot(), [])
      ensures old(state) != STOPPED ==> futureDr6 == old(futureDr6)
      ensures old(InTime(Snapshot())) ==>
                && AtRest(Snapshot())
                && DirectFile() == File(old(tracer.tracee.regs), old(tracer.tracee.dr6))
    {
      hide Exec, RunOk, Kept, Idled, Rested, Direct, Gos;
      ghost var s := Snapshot();
      ghost var a := ReadRegisters();
      ghost var s1 := Snapshot();
      Interleave();
      RestedTrans(s, s1, Snapshot(), reserved);
      RestedInTime(s, Snapshot(), reserved);
      RestedAddsNothing(s, Snapshot(), reserved);
      ReportNow(s);
    }

    /** setState(STOPPED) at the head of handleEvent, `s` being where that began. */
    method ReportNow(ghost s: World)
      requires Valid() && stepping.None? && tracer.status != Reported && Kept(s, Snapshot(), reserved)
      modifies this`regSync, this`run, this`state, tracer`status
      ensures Valid() && state == STOPPED && stepping.None? && Kept(s, Snapshot(), reserved)
      ensures tracer.tracee == old(tracer.tracee) && tracer.commands == old(tracer.commands) && tracer.log == old(tracer.log)
      ensures DirectFile() == File(tracer.tracee.regs, tracer.tracee.dr6)
      ensures tracer.status == if old(tracer.status).Running? then Running else Reported
    {
      hide Exec, RunOk, Kept;
      ghost var s2 := Snapshot();
      SetState(STOPPED);
      if !tracer.status.Running? {
        tracer.status := Reported;
      }
      Record(ReportStop);
      KeptThroughReport(s, s2, Snapshot(), reserved);
    }

    /** The loop over the watchpoints in handleEvent. */
    method ScanWatchPoints() returns (hit: Option<nat>, ghost seen: bv64)
      requires Valid() && stepping.None?
      modifies this`futureRegs, this`futureDr6, this`dr6, this`regSync, this`regs, this`run, tracer
      ensures Valid() && old(run) <= run
      ensures Kept(old(Snapshot()), Snapshot(), reserved) && Added(old(Snapshot()), Snapshot(), [])
      ensures hit == Triggered(seen, 0) && state == old(state)
      ensures old(state != STOPPED && futureDr6.None?) ==> seen == old(dr6)
      ensures old(AtRest(Snapshot())) ==>
                && AtRest(Snapshot()) && seen == old(DirectFile()).dr6
                && DirectFile() == old(DirectFile()).(dr6 := Acknowledged(seen, hit))
    {
      hide Exec, RunOk, Kept, Idled, Flagged, Cleared, StaysPut, Added;
      hit := None;
      var value := GetDr6();
      seen := value;
      RestedIsKept(old(Snapshot()), Snapshot(), reserved);
      RestedAddsNothing(old(Snapshot()), Snapshot(), reserved);
      ghost var s := Snapshot();
      var idx := 0;
      while idx < MAX_WATCHPOINTS
        invariant 0 <= idx <= MAX_WATCHPOINTS
        invariant Valid() && Snapshot() == s && DirectFile() == old(DirectFile())
        invariant hit.None? && Triggered(value, 0) == Triggered(value, idx)
      {
        if Flagged(value, idx) {
          SetDr6(Cleared(value, idx));
          hit := Some(idx);
          RestedTrans(old(Snapshot()), s, Snapshot(), reserved);
          RestedIsKept(old(Snapshot()), Snapshot(), reserved);
          RestedAddsNothing(old(Snapshot()), Snapshot(), reserved);
          RestedSettled(old(Snapshot()), Snapshot(), reserved);
          break;
        }
        idx := idx + 1;
      }
    }
  }
}
