/** What the cache of SpiedThread promises, stated over whole runs. */
module CacheTheorems {
  import opened Ptrace
  import opened RegisterCache

  // ---------------------------------------------------------------- reports in time and late

  /** The world in which the last report came. */
  function AtReport(w0: World, ls: seq<Label>): (r: World)
    requires RunOk(w0, ls)
    ensures r.done <= |r.log|
    decreases |ls|
  {
    if ls == [] then w0
    else if ls[|ls| - 1] == ReportStop then Exec(w0, DropLast(ls))
    else AtReport(w0, DropLast(ls))
  }

  /** How the register file that was loaded when `r` was reported compares with the one that is due. */
  predicate Compares(w: World, r: World, direct: File, due: File)
    requires w.done <= |w.log| && r.done <= |r.log|
  {
    w.status == Reported ==>
      && (NoGo(Queue(w)) ==> direct == due)
      && (direct.regs == due.regs <==> Landing(r).regs == r.tracee.regs)
      && (direct.dr6 == due.dr6 <==> Landing(r).dr6 == r.tracee.dr6)
  }

  lemma StepKeepsComparison(w: World, r: World, direct: File, due: File, l: Label)
    requires Inv(w, due) && r.done <= |r.log| && Compares(w, r, direct, due) && Enabled(w, l)
    ensures var loaded := File(w.tracee.regs, w.tracee.dr6);
            Compares(Apply(w, l), if l == ReportStop then w else r,
                     Edit(direct, loaded, w.state == STOPPED, l), Edit(due, Landing(w), w.state == STOPPED, l))
  {
    hide Landing, Dangling, NoLateRead, NoReadAheadOfWrite, Fresh, OnPlan, Execute;
    var w' := Apply(w, l);
    if l == ReportStop {
      if NoGo(Queue(w)) {
        QueueIsQuiet(w);
      }
    } else {
      if w'.status == Reported {
        ReportedBefore(w, l);
      }
    }
  }

  /** Nothing but a report makes a thread known to be stopped, and nothing takes a resumption back. */
  lemma ReportedBefore(w: World, l: Label)
    requires w.done <= |w.log| && Enabled(w, l) && l != ReportStop && Apply(w, l).status == Reported
    ensures w.status == Reported && (NoGo(Queue(Apply(w, l))) ==> NoGo(Queue(w)))
  {
    hide Execute, Apply;
    var w' := Apply(w, l);
    LogGrows(w, l);
    if l.Worker? {
      StaysReported(w, l.outcome);
      assert Queue(w)[0] == w.log[w.done] && Queue(w') == Queue(w)[1..];
    } else {
      OthersKeepStatus(w, l);
      assert forall i | 0 <= i < |Queue(w)| :: Queue(w')[i] == Queue(w)[i];
    }
  }

  lemma OthersKeepStatus(w: World, l: Label)
    requires w.done <= |w.log| && Enabled(w, l) && l != ReportStop && !l.Worker?
    ensures Apply(w, l).status == w.status || Apply(w, l).status != Reported
  {
  }

  lemma {:induction false} DirectComparesWithDue(w0: World, ls: seq<Label>)
    requires Init(w0) && RunOk(w0, ls)
    ensures Compares(Exec(w0, ls), AtReport(w0, ls), Direct(w0, ls), Due(w0, ls))
    decreases |ls|
  {
    hide Compares, Inv, Landing, Apply, Enabled;
    if ls == [] {
      RunKeepsInv(w0, ls);
      NothingToCompare(w0);
    } else {
      var front, l := DropLast(ls), ls[|ls| - 1];
      DirectComparesWithDue(w0, front);
      RunKeepsInv(w0, front);
      StepKeepsComparison(Exec(w0, front), AtReport(w0, front), Direct(w0, front), Due(w0, front), l);
    }
  }

  lemma NothingToCompare(w: World)
    requires Init(w)
    ensures Compares(w, w, File(w.tracee.regs, w.tracee.dr6), File(w.tracee.regs, w.tracee.dr6))
  {
    InitInv(w);
    GlideQuiet(Start(w), Queue(w));
  }

  /** What is queued up to the first command that lets the tracee go. */
  function BeforeGo(q: seq<Command>): (r: seq<Command>)
    ensures r <= q && NoGo(r)
  {
    if q == [] then []
    else
      var front := q[..|q| - 1];
      var r := BeforeGo(front);
      if |r| < |front| || Go(q[|q| - 1]) then r else r + [q[|q| - 1]]
  }

  /** The value of the last write to DR6 in `q`. */
  function LastPoke(q: seq<Command>, dr6: bv64): bv64 {
    if q == [] then dr6
    else if q[|q| - 1].PokeDr6? then q[|q| - 1].value
    else LastPoke(q[..|q| - 1], dr6)
  }

  lemma {:induction false} GlideStopsAtGo(g: Glider, q: seq<Command>)
    requires !g.gone
    ensures Glide(g, q).sight == Glide(g, BeforeGo(q)).sight
    ensures !Glide(g, BeforeGo(q)).gone && (Glide(g, q).gone <==> BeforeGo(q) != q)
  {
    hide BeforeGo, Tick, Glide;
    BeforeGoUnfolds(q);
    GlideUnfolds(g, q);
    if q != [] {
      var front, c := q[..|q| - 1], q[|q| - 1];
      GlideStopsAtGo(g, front);
      TickAndGo(Glide(g, front), c);
    }
  }

  lemma BeforeGoUnfolds(q: seq<Command>)
    ensures q == [] ==> BeforeGo(q) == []
    ensures q != [] ==>
              var front, c := q[..|q| - 1], q[|q| - 1];
              BeforeGo(q) == if BeforeGo(front) != front then BeforeGo(front) else if Go(c) then front else q
  {
    if q != [] {
      var front := q[..|q| - 1];
      assert front + [q[|q| - 1]] == q;
      assert BeforeGo(front) != front <==> |BeforeGo(front)| < |front|;
    }
  }

  lemma GlideUnfolds(g: Glider, q: seq<Command>)
    ensures Glide(g, q) == if q == [] then g else Tick(Glide(g, q[..|q| - 1]), q[|q| - 1])
  {
  }

  lemma TickAndGo(g: Glider, c: Command)
    ensures Tick(g, c).gone == (g.gone || Go(c))
    ensures g.gone || Go(c) ==> Tick(g, c).sight == g.sight
  {
  }

  lemma {:induction false} GlideWritesBack(g: Glider, q: seq<Command>)
    requires !g.gone && NoGo(q) && NoReadAheadOfWrite(q)
    ensures var g' := Glide(g, q);
            && !g'.gone
            && g'.sight.regs == (if SetRegs in q then g.buffer else g.sight.regs)
            && g'.sight.dr6 == LastPoke(q, g.sight.dr6)
            && (GetRegs !in q ==> g'.buffer == g.buffer)
  {
    hide Tick;
    if q != [] {
      var front, c := q[..|q| - 1], q[|q| - 1];
      assert forall i | 0 <= i < |front| :: front[i] == q[i];
      assert q == front + [c];
      GlideWritesBack(g, front);
      TickWritesBack(Glide(g, front), c);
      if c == SetRegs {
        assert q[|front|] == SetRegs;
        assert GetRegs !in front;
      }
    }
  }

  lemma TickWritesBack(g: Glider, c: Command)
    requires !g.gone && !Go(c)
    ensures var g' := Tick(g, c);
            && !g'.gone
            && g'.sight.regs == (if c == SetRegs then g.buffer else g.sight.regs)
            && g'.sight.dr6 == (if c.PokeDr6? then c.value else g.sight.dr6)
            && g'.buffer == (if c == GetRegs then g.sight.regs else g.buffer)
  {
  }

  /** Where the queue leads, in terms of the write-backs ahead of the next resumption. */
  lemma GlideLands(g: Glider, q: seq<Command>)
    requires !g.gone && NoReadAheadOfWrite(q)
    ensures var p, g' := BeforeGo(q), Glide(g, q);
            && g'.sight.regs == (if SetRegs in p then g.buffer else g.sight.regs)
            && g'.sight.dr6 == LastPoke(p, g.sight.dr6)
  {
    hide Glide;
    GlideStopsAtGo(g, q);
    GlideWritesBack(g, BeforeGo(q));
  }

  /** Reads of a settled thread see the direct register file, whichever of the two futures have
      been consumed: late reports included. */
  lemma {:induction false} ReadsSeeDirectFile(w0: World, ls: seq<Label>)
    requires Init(w0) && RunOk(w0, ls)
    ensures var w, file := Exec(w0, ls), Direct(w0, ls);
            Settled(w) && w.regSync != OLD ==>
              && (w.futureRegs.None? ==> NoGo(Queue(w)) && w.regs == file.regs)
              && (w.futureDr6.None? ==> NoGo(Queue(w)) && w.dr6 == file.dr6)
  {
    hide Exec, RunOk, Direct, Due, Dangling, NoLateRead, NoReadAheadOfWrite, Glide;
    RunKeepsInv(w0, ls);
    DirectComparesWithDue(w0, ls);
    var w := Exec(w0, ls);
    if Settled(w) && NoGo(Queue(w)) {
      QueueIsQuiet(w);
    }
  }

  /** When the worker lets a reported tracee go, its registers are those that are due; they are the
      direct register file, every jump and setDr6 since the report written back and nothing else,
      exactly if the report did not come behind a write-back that a resumption had already queued, or
      that write-back changed nothing. So a report that comes before the resumption is queued is in
      time. */
  lemma {:induction false} ReleaseSeesDirectFile(w0: World, ls: seq<Label>, outcome: Sight)
    requires Init(w0) && RunOk(w0, ls)
    requires var w := Exec(w0, ls); w.status == Reported && w.done < |w.log| && Go(w.log[w.done])
    ensures var w, r, file := Exec(w0, ls), AtReport(w0, ls), Direct(w0, ls);
            var ahead := BeforeGo(Queue(r));
            && File(w.tracee.regs, w.tracee.dr6) == Due(w0, ls)
            && (w.tracee.regs == file.regs <==> SetRegs !in ahead || r.regs == r.tracee.regs)
            && (w.tracee.dr6 == file.dr6 <==> LastPoke(ahead, r.tracee.dr6) == r.tracee.dr6)
            && (NoGo(Queue(r)) ==> File(w.tracee.regs, w.tracee.dr6) == file)
            && Execute(w, outcome).released == w.released[w.done := w.tracee]
  {
    hide Exec, RunOk, Direct, Due, AtReport, Dangling, NoLateRead, NoReadAheadOfWrite, Fresh, GoOk, Glide;
    RunKeepsInv(w0, ls);
    DirectComparesWithDue(w0, ls);
    var w, r := Exec(w0, ls), AtReport(w0, ls);
    ReleaseIsLanding(w);
    AtReportIsOk(w0, ls);
    GlideLands(Start(r), Queue(r));
    if NoGo(Queue(r)) {
      QueueIsQuiet(r);
    }
  }

  lemma ReleaseIsLanding(w: World)
    requires w.done < |w.log| && Go(w.log[w.done])
    ensures Ahead(w).gone && Landing(w) == File(w.tracee.regs, w.tracee.dr6)
  {
    var q := Queue(w);
    assert q[0] == w.log[w.done];
    GlideHead(Start(w), q);
    GlideGone(Tick(Start(w), q[0]), q[1..]);
  }

  lemma {:induction false} AtReportIsOk(w0: World, ls: seq<Label>)
    requires Init(w0) && RunOk(w0, ls)
    ensures CommandsOk(AtReport(w0, ls))
    decreases |ls|
  {
    hide CommandsOk, Exec;
    if ls == [] {
      RunKeepsInv(w0, ls);
      assert Exec(w0, ls) == w0 by {
        NothingRunYet(w0);
      }
    } else if ls[|ls| - 1] == ReportStop {
      RunKeepsInv(w0, DropLast(ls));
    } else {
      AtReportIsOk(w0, DropLast(ls));
    }
  }

  lemma NothingRunYet(w: World)
    requires w.done <= |w.log|
    ensures RunOk(w, []) && Exec(w, []) == w
  {
  }

  /** While `_futureRegs` is not valid no read into `_regs` is queued, so none can overwrite the
      value that jump puts there; and no read is queued ahead of a SETREGS. */
  lemma {:induction false} NoLateOverwrite(w0: World, ls: seq<Label>)
    requires Init(w0) && RunOk(w0, ls)
    ensures var w := Exec(w0, ls);
            && (w.futureRegs.None? ==> GetRegs !in Queue(w))
            && NoReadAheadOfWrite(Queue(w))
  {
    RunKeepsInv(w0, ls);
  }

  /** The SETREGS of ticket `t` has not run yet. */
  predicate WriteQueued(w: World, t: nat) {
    w.done <= t < |w.log| && w.log[t] == SetRegs
  }

  lemma StepKeepsQueuedWrite(w: World, file: File, l: Label, t: nat)
    requires Inv(w, file) && Enabled(w, l) && WriteQueued(w, t) && Apply(w, l).done <= t
    ensures WriteQueued(Apply(w, l), t) && Apply(w, l).regs == w.regs
  {
    hide Dangling, NoLateRead, Tick, Glide, Fresh, OnPlan, Apply;
    LogGrows(w, l);
    if l.Worker? {
      WorkerSparesBuffer(w, l.outcome, t);
    } else {
      if l.Jump? {
        JumpIsNotBehindWrite(w, t);
      }
      OnlyJumpWrites(w, l);
    }
  }

  lemma WorkerSparesBuffer(w: World, outcome: Sight, t: nat)
    requires CommandsOk(w) && WriteQueued(w, t) && w.done < t
    ensures Execute(w, outcome).regs == w.regs
  {
    hide Dangling, NoLateRead;
    assert Queue(w)[t - w.done] == SetRegs && Queue(w)[0] == w.log[w.done];
  }

  /** A thread that may jump has written back what it ever will, and been let go. */
  lemma JumpIsNotBehindWrite(w: World, t: nat)
    requires CommandsOk(w) && GoOk(w) && w.state == STOPPED && w.stepping.None? && w.regSync != OLD && w.futureRegs.None?
    ensures !WriteQueued(w, t)
  {
    hide NoLateRead, NoReadAheadOfWrite, Glide;
    QueueIsQuiet(w);
  }

  lemma OnlyJumpWrites(w: World, l: Label)
    requires w.done <= |w.log| && Enabled(w, l) && !l.Worker? && !l.Jump?
    ensures Apply(w, l).regs == w.regs
  {
  }

  /** SETREGS is queued with a pointer to `_regs`. Whatever happens until it runs, the value it
      finds there is the value present when it was queued. */
  lemma {:induction false} QueuedWriteIsStable(w0: World, a: seq<Label>, b: seq<Label>, t: nat)
    requires Init(w0) && RunOk(w0, a) && RunOk(w0, a + b)
    requires WriteQueued(Exec(w0, a), t) && Exec(w0, a + b).done <= t
    ensures WriteQueued(Exec(w0, a + b), t) && Exec(w0, a + b).regs == Exec(w0, a).regs
  {
    hide Inv, Apply, WriteQueued;
    if b == [] {
      assert a + b == a;
    } else {
      var c := b[..|b| - 1];
      assert DropLast(a + b) == a + c;
      LogGrows(Exec(w0, a + c), (a + b)[|a + b| - 1]);
      QueuedWriteIsStable(w0, a, c, t);
      RunKeepsInv(w0, a + c);
      StepKeepsQueuedWrite(Exec(w0, a + c), Due(w0, a + c), (a + b)[|a + b| - 1], t);
    }
  }

  // ---------------------------------------------------------------- what a released tracee looks like

  /** `t` is the ticket of the next command that lets the stopped tracee go. */
  predicate NextGo(w: World, t: nat) {
    && w.done <= t < |w.log| && Go(w.log[t]) && !w.status.Running?
    && forall i | w.done <= i < t :: !Go(w.log[i])
  }

  /** What the tracee looked like, or will look like, when the command of ticket `t` lets it go. */
  predicate ReleasedAs(w: World, t: nat, sight: Sight) {
    if t < w.done then t in w.released && w.released[t] == sight
    else NextGo(w, t) && Ahead(w).sight == sight
  }

  lemma {:induction false} NextGoMeansGone(g: Glider, q: seq<Command>)
    requires exists i :: 0 <= i < |q| && Go(q[i])
    ensures Glide(g, q).gone
  {
    var front := q[..|q| - 1];
    if Go(q[|q| - 1]) {
    } else {
      var i :| 0 <= i < |q| && Go(q[i]);
      assert front[i] == q[i];
      NextGoMeansGone(g, front);
    }
  }

  lemma StepKeepsReleasedAs(w: World, file: File, l: Label, t: nat, sight: Sight)
    requires Inv(w, file) && Enabled(w, l) && ReleasedAs(w, t, sight)
    ensures ReleasedAs(Apply(w, l), t, sight)
  {
    hide Apply, Tick, Glide, Dangling, NoLateRead, Fresh, OnPlan;
    if t < w.done {
      PastStays(w, l, t, sight);
    } else if l.Worker? {
      WorkerKeepsReleasedAs(w, l.outcome, t, sight);
    } else {
      TraceeStays(w, file, l, t);
      LogGrows(w, l);
      AppendKeepsReleasedAs(w, Apply(w, l), t, sight);
    }
  }

  lemma PastStays(w: World, l: Label, t: nat, sight: Sight)
    requires t < w.done <= |w.log| && Enabled(w, l) && t in w.released && w.released[t] == sight
    ensures t < Apply(w, l).done && t in Apply(w, l).released && Apply(w, l).released[t] == sight
  {
    hide Execute, Apply, Enabled;
    LogGrows(w, l);
    if l.Worker? {
      ExecuteRemembers(w, l.outcome, t);
    }
  }

  lemma ExecuteRemembers(w: World, outcome: Sight, t: nat)
    requires t < w.done < |w.log|
    ensures t in w.released ==> t in Execute(w, outcome).released && Execute(w, outcome).released[t] == w.released[t]
    ensures t in w.stepped ==> t in Execute(w, outcome).stepped && Execute(w, outcome).stepped[t] == w.stepped[t]
    ensures t in w.peeked ==> t in Execute(w, outcome).peeked && Execute(w, outcome).peeked[t] == w.peeked[t]
  {
  }

  /** With a resumption queued, clients touch neither the tracee nor the buffer. */
  lemma TraceeStays(w: World, file: File, l: Label, t: nat)
    requires Inv(w, file) && Enabled(w, l) && !l.Worker? && NextGo(w, t)
    ensures Apply(w, l).tracee == w.tracee && Apply(w, l).regs == w.regs && !Apply(w, l).status.Running?
  {
    hide CommandsOk, Fresh, OnPlan, Execute;
    assert Go(Queue(w)[t - w.done]);
  }

  lemma AppendKeepsReleasedAs(w: World, w': World, t: nat, sight: Sight)
    requires NextGo(w, t) && Ahead(w).sight == sight && w.log <= w'.log && w'.done == w.done
    requires w'.tracee == w.tracee && w'.regs == w.regs && !w'.status.Running?
    ensures ReleasedAs(w', t, sight)
  {
    hide Glide;
    var q, r := Queue(w), w'.log[|w.log|..];
    assert Go(q[t - w.done]);
    NextGoMeansGone(Start(w), q);
    assert Queue(w') == q + r;
    GlideConcat(Start(w), q, r);
    GlideGone(Ahead(w), r);
  }

  lemma WorkerKeepsReleasedAs(w: World, outcome: Sight, t: nat, sight: Sight)
    requires w.done <= t && ReleasedAs(w, t, sight)
    ensures ReleasedAs(Execute(w, outcome), t, sight)
  {
    if t == w.done {
      var q := Queue(w);
      assert q[0] == w.log[w.done];
      GlideHead(Start(w), q);
      GlideGone(Tick(Start(w), q[0]), q[1..]);
    } else {
      hide Glide, Tick;
      ExecuteIsTick(w, outcome);
    }
  }

  /** The log only grows. */
  lemma LogGrows(w: World, l: Label)
    requires w.done <= |w.log| && Enabled(w, l)
    ensures w.log <= Apply(w, l).log
    ensures Apply(w, l).done == if l.Worker? then w.done + 1 else w.done
  {
  }

  /** Nothing that happens after a resumption or a step is queued changes what the tracee looks
      like when it is let go. */
  lemma {:induction false} RunKeepsReleasedAs(w0: World, a: seq<Label>, b: seq<Label>, t: nat, sight: Sight)
    requires Init(w0) && RunOk(w0, a) && RunOk(w0, a + b)
    requires ReleasedAs(Exec(w0, a), t, sight)
    ensures ReleasedAs(Exec(w0, a + b), t, sight)
  {
    if b == [] {
      assert a + b == a;
    } else {
      var c := b[..|b| - 1];
      assert DropLast(a + b) == a + c;
      RunKeepsReleasedAs(w0, a, c, t, sight);
      RunKeepsInv(w0, a + c);
      StepKeepsReleasedAs(Exec(w0, a + c), Due(w0, a + c), (a + b)[|a + b| - 1], t, sight);
    }
  }

  // ---------------------------------------------------------------- blocking waits

  function Iterations(ls: seq<Label>): nat {
    if ls == [] then 0 else Iterations(DropLast(ls)) + if ls[|ls| - 1].Worker? then 1 else 0
  }

  /** A wait ends after exactly as many worker iterations as there are commands up to the awaited
      one, however many more are enqueued behind it and whoever holds the state mutex. */
  lemma {:induction false} WaitsEnd(w0: World, a: seq<Label>, b: seq<Label>, t: nat)
    requires RunOk(w0, a) && RunOk(w0, a + b)
    requires Exec(w0, a).done <= t < |Exec(w0, a).log|
    ensures Exec(w0, a + b).done == Exec(w0, a).done + Iterations(b)
    ensures t < Exec(w0, a + b).done <==> Iterations(b) > t - Exec(w0, a).done
    ensures |Exec(w0, a + b).log| >= |Exec(w0, a).log|
  {
    if b == [] {
      assert a + b == a;
    } else {
      var c := b[..|b| - 1];
      assert DropLast(a + b) == a + c;
      WaitsEnd(w0, a, c, t);
      LogGrows(Exec(w0, a + c), (a + b)[|a + b| - 1]);
    }
  }
}
