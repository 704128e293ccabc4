/**
 Reports that come late. A client may resume a thread before the stop it resumes it from has been
 reported; the report then finds the CONT still queued, or the thread running again.
 */
module LateReports {
  import opened Options
  import opened Ptrace
  import opened RegisterCache
  import opened CacheTheorems
  import opened StepWindow
  import opened Events

  /** A report in time: the tracee is stopped and nothing queued will let it go. */
  predicate InTime(w: World)
    requires w.done <= |w.log|
  {
    w.status == Trapped && NoGo(Queue(w))
  }

  predicate AllInTime(w0: World, ls: seq<Label>)
    requires RunOk(w0, ls)
    decreases |ls|
  {
    ls == [] ||
    (AllInTime(w0, DropLast(ls)) && (ls[|ls| - 1] == ReportStop ==> InTime(Exec(w0, DropLast(ls)))))
  }

  /** A thread in state STOPPED is stopped, and only its own singleStep will let it go. */
  predicate StoppedIsStopped(w: World)
    requires w.done <= |w.log|
  {
    w.state == STOPPED ==>
      && !w.status.Running?
      && (w.stepping.None? ==> NoGo(Queue(w)))
      && (w.stepping.Some? ==> forall i | 0 <= i < |Queue(w)| && Go(Queue(w)[i]) :: w.done + i == w.stepping.value)
  }

  lemma StepKeepsStopped(w: World, file: File, l: Label)
    requires Inv(w, file) && StoppedIsStopped(w) && Enabled(w, l) && (l == ReportStop ==> InTime(w))
    ensures StoppedIsStopped(Apply(w, l))
  {
    hide CommandsOk, Fresh, OnPlan, Execute, Apply, LastGo, GoBefore;
    var w' := Apply(w, l);
    LogGrows(w, l);
    if l.Worker? {
      assert w.log[w.done] == Queue(w)[0] && Queue(w') == Queue(w)[1..];
      WorkerKeepsStopped(w, l.outcome);
    } else {
      OthersKeepStopped(w, l);
    }
  }

  lemma WorkerKeepsStopped(w: World, outcome: Sight)
    requires w.done < |w.log| && GoOk(w) && StoppedIsStopped(w)
    ensures StoppedIsStopped(Execute(w, outcome))
  {
    hide GoBefore, LastGo;
    var q, w' := Queue(w), Execute(w, outcome);
    assert q[0] == w.log[w.done] && Queue(w') == q[1..];
  }

  lemma OthersKeepStopped(w: World, l: Label)
    requires w.done <= |w.log| && StoppedIsStopped(w) && Enabled(w, l) && !l.Worker?
    requires l == ReportStop ==> InTime(w)
    ensures StoppedIsStopped(Apply(w, l))
  {
    match l
    case Produce(c) => AppendKeepsStopped(w, Apply(w, l), [c]);
    case Read(a) => ReadKeepsStopped(w, a);
    case StepBegin(a, b) => StepBeginKeepsStopped(w, a, b);
    case Resume(_, _, _) => ResumeLeavesStopped(w, l);
    case _ =>
      EventsKeepStopped(w, l);
  }

  lemma EventsKeepStopped(w: World, l: Label)
    requires w.done <= |w.log| && StoppedIsStopped(w) && Enabled(w, l)
    requires !l.Worker? && !l.Produce? && !l.Read? && !l.StepBegin? && !l.Resume?
    requires l == ReportStop ==> InTime(w)
    ensures StoppedIsStopped(Apply(w, l))
  {
    var w' := Apply(w, l);
    assert w'.log == w.log && w'.done == w.done;
    assert Queue(w') == Queue(w);
  }

  lemma ReadKeepsStopped(w: World, a: seq<Command>)
    requires w.done <= |w.log| && StoppedIsStopped(w) && AllForeign(a)
    ensures StoppedIsStopped(ReadRegisters(w, a))
  {
    hide StoppedIsStopped;
    if w.state == STOPPED && w.regSync == OLD {
      AppendKeepsStopped(w, ReadRegisters(w, a), [PeekDr6] + a + [GetRegs]);
    } else {
      AppendKeepsStopped(w, ReadRegisters(w, a), a);
    }
  }

  lemma AppendKeepsStopped(w: World, w': World, r: seq<Command>)
    requires w.done <= |w.log| && StoppedIsStopped(w) && Quiet(r) && w'.log == w.log + r && w'.done == w.done
    requires w'.tracee == w.tracee && w'.regs == w.regs && w'.state == w.state && w'.status == w.status && w'.stepping == w.stepping
    ensures StoppedIsStopped(w')
  {
    hide Landing, Ahead;
    AppendQuiet(w, w', r);
  }

  lemma ResumeLeavesStopped(w: World, l: Label)
    requires w.done <= |w.log| && l.Resume? && Enabled(w, l)
    ensures Apply(w, l).state != STOPPED
  {
  }

  lemma StepBeginKeepsStopped(w: World, a: seq<Command>, b: seq<Command>)
    requires w.done <= |w.log| && StoppedIsStopped(w) && w.stepping.None? && AllForeign(a) && AllForeign(b)
    ensures StoppedIsStopped(Apply(w, StepBegin(a, b)))
  {
    hide Release;
    var r := Release(w, a, b, SingleStep);
    ReleaseContents(w, a, b, SingleStep);
    assert Queue(Apply(w, StepBegin(a, b))) == Queue(w) + r by {
      assert LetGo(w, a, b, SingleStep).log == w.log + r by {
        ReleaseIs(w, a, b);
      }
    }
  }

  lemma ReleaseIs(w: World, a: seq<Command>, b: seq<Command>)
    ensures LetGo(w, a, b, SingleStep).log == w.log + Release(w, a, b, SingleStep)
  {
  }

  /** A report leaves STOPPED to mean stopped exactly if it comes in time. */
  lemma ReportKeepsStoppedExactlyIf(w: World)
    requires w.done <= |w.log| && Enabled(w, ReportStop)
    ensures Apply(w, ReportStop).state == STOPPED && (Apply(w, ReportStop).status == Running <==> w.status == Running)
    ensures StoppedIsStopped(Apply(w, ReportStop)) <==> InTime(w)
  {
    assert Queue(Apply(w, ReportStop)) == Queue(w);
  }

  predicate AlwaysStopped(w0: World, ls: seq<Label>)
    requires RunOk(w0, ls)
    decreases |ls|
  {
    StoppedIsStopped(Exec(w0, ls)) && (ls == [] || AlwaysStopped(w0, DropLast(ls)))
  }

  /** STOPPED means stopped throughout a run exactly if every report in it comes in time. */
  lemma {:induction false} AlwaysStoppedExactlyIf(w0: World, ls: seq<Label>)
    requires Init(w0) && RunOk(w0, ls)
    ensures AlwaysStopped(w0, ls) <==> AllInTime(w0, ls)
    decreases |ls|
  {
    hide Inv, Apply, Enabled, StoppedIsStopped, InTime;
    if ls == [] {
      StoppedAtFirst(w0);
    } else {
      var front, l := DropLast(ls), ls[|ls| - 1];
      AlwaysStoppedExactlyIf(w0, front);
      RunKeepsInv(w0, front);
      if l == ReportStop {
        ReportKeepsStoppedExactlyIf(Exec(w0, front));
      } else if AlwaysStopped(w0, front) {
        AlwaysMeansNow(w0, front);
        StepKeepsStopped(Exec(w0, front), Due(w0, front), l);
      }
    }
  }

  lemma AlwaysMeansNow(w0: World, ls: seq<Label>)
    requires RunOk(w0, ls) && AlwaysStopped(w0, ls)
    ensures StoppedIsStopped(Exec(w0, ls))
  {
  }

  lemma StoppedAtFirst(w: World)
    requires Init(w)
    ensures StoppedIsStopped(w)
  {
  }

  /** `n` iterations of the worker. */
  function Workers(outcome: Sight, n: nat): (ls: seq<Label>)
    ensures |ls| == n
  {
    seq(n, _ => Worker(outcome))
  }

  /** A report that comes after the CONT has run leaves the state STOPPED and the thread running. One
      that comes while the CONT of ticket `t` is queued gets there when the worker does. */
  lemma LateReportLeavesStopped(w: World, t: nat, outcome: Sight)
    requires w.done <= |w.log| && Enabled(w, ReportStop) && |outcome.mem| == |w.tracee.mem|
    requires w.status.Running? || (NextGo(w, t) && w.log[t].Cont?)
    ensures var ls := [ReportStop] + Workers(outcome, if w.status.Running? then 0 else t + 1 - w.done);
            RunOk(w, ls) && Exec(w, ls).state == STOPPED && Exec(w, ls).status == Running
  {
    hide Exec, RunOk;
    NothingRunYet(w);
    ExecSnoc(w, [], ReportStop);
    assert [] + [ReportStop] == [ReportStop];
    if w.status.Running? {
      assert [ReportStop] + Workers(outcome, 0) == [ReportStop];
    } else {
      var n := t - w.done;
      LateWorkers(w, t, outcome, n);
      var ls := [ReportStop] + Workers(outcome, n);
      ExecSnoc(w, ls, Worker(outcome));
      assert ls + [Worker(outcome)] == [ReportStop] + Workers(outcome, n + 1);
    }
  }

  lemma {:induction false} LateWorkers(w: World, t: nat, outcome: Sight, n: nat)
    requires w.done <= |w.log| && NextGo(w, t) && w.status == Trapped && w.stepping.None?
    requires |outcome.mem| == |w.tracee.mem| && n <= t - w.done
    requires RunOk(w, [ReportStop]) && Exec(w, [ReportStop]) == Apply(w, ReportStop)
    ensures var ls := [ReportStop] + Workers(outcome, n);
            && RunOk(w, ls)
            && var w' := Exec(w, ls);
               && w'.state == STOPPED && w'.status == Reported && w'.log == w.log && w'.done == w.done + n
               && |w'.tracee.mem| == |w.tracee.mem|
    decreases n
  {
    hide Exec, RunOk;
    if n == 0 {
      assert [ReportStop] + Workers(outcome, 0) == [ReportStop];
    } else {
      LateWorkers(w, t, outcome, n - 1);
      var ls := [ReportStop] + Workers(outcome, n - 1);
      assert !Go(w.log[Exec(w, ls).done]);
      ExecSnoc(w, ls, Worker(outcome));
      assert ls + [Worker(outcome)] == [ReportStop] + Workers(outcome, n);
    }
  }

  // ---------------------------------------------------------------- what the event handler reads

  /** Between two tickets nothing lets the tracee go. */
  predicate NoGoBetween(log: seq<Command>, i: nat, j: nat)
    requires j <= |log|
  {
    forall k | i <= k < j :: !Go(log[k])
  }

  /** Nor is anything written back. */
  predicate QuietBetween(log: seq<Command>, i: nat, j: nat)
    requires j <= |log|
  {
    forall k | i <= k < j :: !Go(log[k]) && !WriteBack(log[k])
  }

  predicate NoReport(ls: seq<Label>) {
    forall i | 0 <= i < |ls| :: !ls[i].ReportStop?
  }

  /** What goes on while the handler is between two statements: nothing that takes the state mutex. */
  predicate Aside(l: Label) {
    l.Worker? || l.Produce? || l.Trap? || l.AwaitRegs? || l.AwaitDr6?
  }

  predicate AllAside(ls: seq<Label>) {
    forall i | 0 <= i < |ls| :: Aside(ls[i])
  }

  /** The thread is known to be stopped, in `v`, exactly as long as the stop reported in `w` lasts; and
      as long as only quiet commands have been run, it is as it was. */
  predicate SinceReport(w: World, v: World) {
    && w.done <= v.done <= |v.log| && w.log <= v.log
    && (v.status == Reported <==> w.status == Trapped && NoGoBetween(v.log, w.done, v.done))
    && (w.status == Trapped && QuietBetween(v.log, w.done, v.done) ==> FileOf(v.tracee) == FileOf(w.tracee))
  }

  lemma StepSinceReport(w: World, v: World, l: Label)
    requires SinceReport(w, v) && Enabled(v, l) && !l.ReportStop?
    ensures SinceReport(w, Apply(v, l))
  {
    hide Apply, Enabled, Execute;
    var v' := Apply(v, l);
    if l.Worker? {
      WorkerSinceReport(w, v, l.outcome);
    } else {
      OthersSpareTracee(v, l);
      assert QuietBetween(v.log, w.done, v.done) ==> NoGoBetween(v.log, w.done, v.done);
      assert forall k | w.done <= k < v.done :: v'.log[k] == v.log[k];
    }
  }

  lemma OthersSpareTracee(v: World, l: Label)
    requires v.done <= |v.log| && Enabled(v, l) && !l.Worker? && !l.ReportStop?
    ensures Apply(v, l).status == Reported <==> v.status == Reported
    ensures v.status == Reported ==> Apply(v, l).tracee == v.tracee
  {
  }

  lemma WorkerSinceReport(w: World, v: World, outcome: Sight)
    requires SinceReport(w, v) && v.done < |v.log|
    ensures SinceReport(w, Execute(v, outcome))
  {
    hide Execute, FileOf;
    var v', c := Execute(v, outcome), v.log[v.done];
    ExecuteKeepsReported(v, outcome);
    assert NoGoBetween(v.log, w.done, v.done + 1) <==> NoGoBetween(v.log, w.done, v.done) && !Go(c);
    if w.status == Trapped && QuietBetween(v.log, w.done, v.done + 1) {
      assert QuietBetween(v.log, w.done, v.done) && NoGoBetween(v.log, w.done, v.done) && !Go(c) && !WriteBack(c);
      QuietExecute(v, outcome);
      assert FileOf(v'.tracee) == FileOf(v.tracee) by {
        SameFile(v'.tracee, v.tracee);
      }
    }
  }

  lemma SameFile(a: Sight, b: Sight)
    requires a.regs == b.regs && a.dr6 == b.dr6
    ensures FileOf(a) == FileOf(b)
  {
  }

  lemma ExecuteKeepsReported(v: World, outcome: Sight)
    requires v.done < |v.log|
    ensures Execute(v, outcome).status == Reported <==> v.status == Reported && !Go(v.log[v.done])
  {
  }

  lemma {:induction false} RunSinceReport(w0: World, a: seq<Label>, b: seq<Label>)
    requires RunOk(w0, a) && NoReport(b) && RunOk(w0, a + [ReportStop] + b)
    ensures SinceReport(Exec(w0, a), Exec(w0, a + [ReportStop] + b))
    decreases |b|
  {
    hide SinceReport, Apply, Enabled;
    var ls := a + [ReportStop] + b;
    if b == [] {
      assert DropLast(ls) == a;
      ReportStarts(Exec(w0, a));
    } else {
      var c := b[..|b| - 1];
      assert DropLast(ls) == a + [ReportStop] + c;
      assert forall i | 0 <= i < |c| :: c[i] == b[i];
      RunSinceReport(w0, a, c);
      StepSinceReport(Exec(w0, a), Exec(w0, DropLast(ls)), ls[|ls| - 1]);
    }
  }

  lemma ReportStarts(w: World)
    requires w.done <= |w.log| && Enabled(w, ReportStop)
    ensures SinceReport(w, Apply(w, ReportStop))
  {
  }

  /** Until the handler reads, only requests of other producers join the queue. */
  lemma {:induction false} AsideKeeps(w0: World, a: seq<Label>, m: seq<Label>)
    requires RunOk(w0, a) && AllAside(m) && RunOk(w0, a + [ReportStop] + m)
    ensures var w, r := Exec(w0, a), Exec(w0, a + [ReportStop] + m);
            && w.log <= r.log && AllForeign(r.log[|w.log|..])
            && r.state == STOPPED && r.regSync == OLD
    decreases |m|
  {
    hide Apply, Enabled;
    var ls := a + [ReportStop] + m;
    if m == [] {
      assert DropLast(ls) == a;
      ReportDoes(Exec(w0, a));
    } else {
      var c := m[..|m| - 1];
      assert DropLast(ls) == a + [ReportStop] + c;
      assert forall i | 0 <= i < |c| :: c[i] == m[i];
      AsideKeeps(w0, a, c);
      AsideDoes(Exec(w0, DropLast(ls)), ls[|ls| - 1], |Exec(w0, a).log|);
    }
  }

  lemma ReportDoes(w: World)
    requires w.done <= |w.log| && Enabled(w, ReportStop)
    ensures var r := Apply(w, ReportStop); r.log == w.log && r.state == STOPPED && r.regSync == OLD
  {
  }

  lemma AsideDoes(w: World, l: Label, n: nat)
    requires w.done <= |w.log| && n <= |w.log| && Aside(l) && Enabled(w, l) && AllForeign(w.log[n..])
    ensures var r := Apply(w, l);
            w.log <= r.log && AllForeign(r.log[n..]) && r.state == w.state && r.regSync == w.regSync
  {
    hide Execute;
    if l.Produce? {
      assert (w.log + [l.command])[n..] == w.log[n..] + [l.command];
    }
  }

  /** The event handler's read of DR6 is answered while the stop that it was told of lasts, and with that
      stop's value, exactly if the report came in time: the thread was stopped, and nothing was queued that
      would let it go. Otherwise it is answered with another stop's value, or if the thread runs when the
      worker gets to the read, with the error value. `m` is what goes on before the handler reads, and `b`
      what happens until the worker gets to the read. */
  lemma HandlerReadsReportedStopExactlyIf(w0: World, a: seq<Label>, m: seq<Label>, x: seq<Command>, b: seq<Label>, outcome: Sight)
    requires Init(w0) && RunOk(w0, a) && AllAside(m) && NoReport(b)
    requires RunOk(w0, a + [ReportStop] + m) && RunOk(w0, a + [ReportStop] + (m + [Read(x)] + b))
    requires Exec(w0, a + [ReportStop] + (m + [Read(x)] + b)).done == |Exec(w0, a + [ReportStop] + m).log|
    ensures var w, v, t := Exec(w0, a), Exec(w0, a + [ReportStop] + (m + [Read(x)] + b)), |Exec(w0, a + [ReportStop] + m).log|;
            && (v.status == Reported <==> InTime(w))
            && (InTime(w) ==> v.tracee.dr6 == w.tracee.dr6)
            && t < |v.log| && v.log[t] == PeekDr6 && t in Execute(v, outcome).peeked
            && Execute(v, outcome).peeked[t] == if v.status.Running? then ERROR_VALUE else v.tracee.dr6
  {
    hide Exec, RunOk, CommandsOk, SinceReport, Execute, FileOf;
    var all := m + [Read(x)] + b;
    assert NoReport(all);
    RunSinceReport(w0, a, all);
    AsideKeeps(w0, a, m);
    assert a + [ReportStop] + m + [Read(x)] + b == a + [ReportStop] + all;
    ReadIsQueued(w0, a + [ReportStop] + m, x, b);
    RunKeepsInv(w0, a);
    InvParts(Exec(w0, a), Due(w0, a));
    HandlerReads(Exec(w0, a), Exec(w0, a + [ReportStop] + m).log, Exec(w0, a + [ReportStop] + all));
    PeekAnswers(Exec(w0, a + [ReportStop] + all), outcome);
  }

  lemma PeekAnswers(v: World, outcome: Sight)
    requires v.done < |v.log| && v.log[v.done] == PeekDr6
    ensures v.done in Execute(v, outcome).peeked
    ensures Execute(v, outcome).peeked[v.done] == if v.status.Running? then ERROR_VALUE else v.tracee.dr6
  {
  }

  lemma HandlerReads(w: World, log: seq<Command>, v: World)
    requires CommandsOk(w) && SinceReport(w, v) && w.log <= log <= v.log && AllForeign(log[|w.log|..]) && v.done == |log|
    ensures v.status == Reported <==> InTime(w)
    ensures InTime(w) ==> v.tracee.dr6 == w.tracee.dr6
  {
    hide CommandsOk, NoGoBetween, QuietBetween, Queue, NoGo, Quiet, AllForeign;
    QueueIsBetween(w, log, v.log);
    if InTime(w) {
      QueueIsQuiet(w);
    }
  }

  /** What was queued at the report, and what others have enqueued since, by ticket. */
  lemma QueueIsBetween(w: World, log: seq<Command>, later: seq<Command>)
    requires w.done <= |w.log| && w.log <= log <= later && AllForeign(log[|w.log|..])
    ensures NoGo(Queue(w)) <==> NoGoBetween(later, w.done, |log|)
    ensures Quiet(Queue(w)) ==> QuietBetween(later, w.done, |log|)
  {
    var q := Queue(w);
    forall k | w.done <= k < |log|
      ensures if k < |w.log| then later[k] == q[k - w.done] else Foreign(later[k])
    {
      if k >= |w.log| {
        assert later[k] == log[|w.log|..][k - |w.log|];
      }
    }
    if NoGoBetween(later, w.done, |log|) {
      forall i | 0 <= i < |q|
        ensures !Go(q[i])
      {
        assert later[w.done + i] == q[i];
      }
    }
  }

  lemma {:induction false} ReadIsQueued(w0: World, a: seq<Label>, x: seq<Command>, b: seq<Label>)
    requires RunOk(w0, a) && Exec(w0, a).state == STOPPED && Exec(w0, a).regSync == OLD && RunOk(w0, a + [Read(x)] + b)
    ensures var w, v := Exec(w0, a), Exec(w0, a + [Read(x)] + b);
            |w.log| < |v.log| && w.log <= v.log && v.log[|w.log|] == PeekDr6
    decreases |b|
  {
    hide Apply, Enabled;
    var ls := a + [Read(x)] + b;
    if b == [] {
      assert DropLast(ls) == a;
      ReadQueues(Exec(w0, a), x);
    } else {
      assert DropLast(ls) == a + [Read(x)] + b[..|b| - 1];
      ReadIsQueued(w0, a, x, b[..|b| - 1]);
      LogGrows(Exec(w0, DropLast(ls)), ls[|ls| - 1]);
    }
  }

  lemma ReadQueues(w: World, x: seq<Command>)
    requires w.done <= |w.log| && w.state == STOPPED && w.regSync == OLD && Enabled(w, Read(x))
    ensures var r := Apply(w, Read(x)); |w.log| < |r.log| && w.log <= r.log && r.log[|w.log|] == PeekDr6
  {
  }

  /** The error value passes for a hit of watchpoint 0, whatever the watchpoints are. */
  lemma ErrorValueIsHit(event: nat, expected: bool)
    ensures HandleEvent(Stopped(SIGTRAP, event), expected, ERROR_VALUE).hit == Some(0)
  {
  }

  // ---------------------------------------------------------------- from the start

  /** A thread that has just been created is stepped and resumed before anything is reported. */
  lemma StepAndResume(w0: World, signum: nat, outcome: Sight) returns (ls: seq<Label>, w: World)
    requires Init(w0) && Queue(w0) == [] && |outcome.mem| == |w0.tracee.mem|
    ensures Leads(w0, ls, w)
    ensures w.status == Trapped && w.stepping.None? && w.done <= |w.log| && Queue(w) == [Cont(signum)] && w.tracee == outcome
  {
    hide Exec, RunOk, Leads;
    var a, v := StepIdle(w0, outcome);
    var l := Resume(signum, [], []);
    assert Apply(v, l).log == v.log + [Cont(signum)];
    LeadsOn(w0, a, v, l);
    ls, w := a + [l], Apply(v, l);
    assert Queue(w) == [Cont(signum)];
  }

  /** Both kinds of late reports do happen, with the CONT queued (`queued`) or executed; the state is then
      STOPPED while the thread runs. */
  lemma LateReportHappens(w0: World, signum: nat, outcome: Sight, queued: bool) returns (ls: seq<Label>, w: World)
    requires Init(w0) && Queue(w0) == [] && |outcome.mem| == |w0.tracee.mem|
    ensures RunOk(w0, ls) && Exec(w0, ls) == w && w.state == STOPPED && w.status == Running
  {
    hide Exec, RunOk, Leads;
    var a, v := StepAndResume(w0, signum, outcome);
    assert v.log[v.done] == Queue(v)[0];
    var first, second := if queued then ReportStop else Worker(outcome), if queued then Worker(outcome) else ReportStop;
    LeadsOn(w0, a, v, first);
    LeadsOn(w0, a + [first], Apply(v, first), second);
    ls, w := a + [first] + [second], Apply(Apply(v, first), second);
    LeadsTo(w0, ls, w);
  }

  /** And so does the hit of watchpoint 0 that nobody set. */
  lemma LateHitHappens(w0: World, signum: nat, outcome: Sight, expected: bool) returns (ls: seq<Label>, w: World)
    requires Init(w0) && Queue(w0) == [] && |outcome.mem| == |w0.tracee.mem|
    ensures RunOk(w0, ls) && Exec(w0, ls) == w && w.dr6 == ERROR_VALUE && w.state == STOPPED && w.futureDr6.None?
    ensures HandleEvent(Stopped(SIGTRAP, 0), expected, w.dr6).hit == Some(0)
  {
    hide Exec, RunOk, Leads, HandleEvent, Apply, Enabled;
    ErrorValueIsHit(0, expected);
    var a, w1 := StepAndResume(w0, signum, outcome);
    ReportAndRead(w1, signum);
    var l1, l2, l3, l4 := ReportStop, Read([]), Worker(outcome), AwaitDr6;
    var w3 := Apply(Apply(w1, l1), l2);
    ContAndPeek(w3, outcome);
    var w5 := Apply(Apply(w3, l3), l3);
    LeadsOn(w0, a, w1, l1);
    LeadsOn(w0, a + [l1], Apply(w1, l1), l2);
    LeadsOn(w0, a + [l1] + [l2], w3, l3);
    LeadsOn(w0, a + [l1] + [l2] + [l3], Apply(w3, l3), l3);
    LeadsOn(w0, a + [l1] + [l2] + [l3] + [l3], w5, l4);
    ls, w := a + [l1] + [l2] + [l3] + [l3] + [l4], Apply(w5, l4);
    LeadsTo(w0, ls, w);
  }

  lemma ReportAndRead(w: World, signum: nat)
    requires w.done <= |w.log| && Queue(w) == [Cont(signum)] && w.status == Trapped && w.stepping.None?
    ensures Enabled(w, ReportStop) && Enabled(Apply(w, ReportStop), Read([]))
    ensures var w2 := Apply(Apply(w, ReportStop), Read([]));
            && w2.done + 1 < |w2.log| && w2.log[w2.done].Cont? && w2.log[w2.done + 1] == PeekDr6
            && w2.futureDr6 == Some(w2.done + 1) && !w2.status.Running? && w2.tracee == w.tracee && w2.state == STOPPED
  {
    assert w.log[w.done..] == [Cont(signum)];
    assert w.log[w.done] == Cont(signum);
    assert Apply(Apply(w, ReportStop), Read([])).log == w.log + [PeekDr6, GetRegs];
  }

  lemma ContAndPeek(w: World, outcome: Sight)
    requires w.done + 1 < |w.log| && w.log[w.done].Cont? && w.log[w.done + 1] == PeekDr6
    requires w.futureDr6 == Some(w.done + 1) && !w.status.Running? && |outcome.mem| == |w.tracee.mem|
    ensures Enabled(w, Worker(outcome)) && Enabled(Apply(w, Worker(outcome)), Worker(outcome))
    ensures var w' := Apply(Apply(w, Worker(outcome)), Worker(outcome));
            && Enabled(w', AwaitDr6) && Apply(w', AwaitDr6).dr6 == ERROR_VALUE
            && Apply(w', AwaitDr6).state == w.state && Apply(w', AwaitDr6).futureDr6.None?
  {
  }
}
