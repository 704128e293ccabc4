/**
 After singleStep and before the next report. Nothing leaves STOPPED during singleStep, so a cache
 that was filled before the step is still taken for good after it: reads return what it holds, and
 a write to one register writes all of it back over what the step has done.
 */
module StepWindow {
  import opened Options
  import opened Words
  import opened Ptrace
  import opened RegisterCache
  import opened CacheTheorems

  /** Everything but a report, a resumption and another step. */
  predicate InWindow(l: Label) {
    !l.ReportStop? && !l.ReportOther? && !l.Resume? && !l.StepBegin?
  }

  predicate AllInWindow(ls: seq<Label>) {
    forall i | 0 <= i < |ls| :: InWindow(ls[i])
  }

  /** The thread is stopped, and nothing queued will let it go; the stop may not have been reported. */
  predicate Halted(w: World) {
    w.done <= |w.log| && w.state == STOPPED && w.stepping.None? && !w.status.Running? && NoGo(Queue(w))
  }

  // ---------------------------------------------------------------- the registers in question

  /** What jump and setDr6 have written. */
  datatype Overlay = Overlay(rip: Option<Word64>, dr6: Option<bv64>)

  function Laid(e: Overlay, file: File): File {
    File(if e.rip.Some? then file.regs.(rip := e.rip.value) else file.regs, e.dr6.GetOr(file.dr6))
  }

  function Written(e: Overlay, l: Label): Overlay {
    match l
    case Jump(addr) => e.(rip := Some(addr))
    case SetDr6(value) => e.(dr6 := Some(value))
    case _ => e
  }

  function AllWritten(ls: seq<Label>): Overlay {
    if ls == [] then Overlay(None, None) else Written(AllWritten(ls[..|ls| - 1]), ls[|ls| - 1])
  }

  function FileOf(sight: Sight): File {
    File(sight.regs, sight.dr6)
  }

  function PeekedAt(w: World, future: nat): bv64 {
    if future in w.peeked then w.peeked[future] else ERROR_VALUE
  }

  /** What the cache of a halted thread holds, or will when the reads that are queued have run. */
  function Cached(w: World): File {
    File(if w.futureRegs.Some? && w.futureRegs.value >= w.done then w.tracee.regs else w.regs,
         if w.futureDr6.None? then w.dr6
         else if w.futureDr6.value >= w.done then w.tracee.dr6
         else PeekedAt(w, w.futureDr6.value))
  }

  /** In a thread at rest whose registers have been read that is the direct register file. */
  lemma CachedIsDirect(w0: World, ls: seq<Label>)
    requires Init(w0) && RunOk(w0, ls) && AtRest(Exec(w0, ls)) && Exec(w0, ls).regSync != OLD
    ensures Cached(Exec(w0, ls)) == Direct(w0, ls)
  {
    hide Exec, RunOk, Direct, Due, Glide, Dangling, NoLateRead, NoReadAheadOfWrite;
    RunKeepsInv(w0, ls);
    DirectComparesWithDue(w0, ls);
    QueueIsQuiet(Exec(w0, ls));
  }

  // ---------------------------------------------------------------- the window

  /** The step of ticket `t` is on the way: still queued, or taken. `found` is what it finds. */
  predicate StepGoesOn(w: World, t: nat, found: File)
    requires w.done <= |w.log|
  {
    && w.state == STOPPED && t < |w.log| && w.log[t].SingleStep?
    && if t >= w.done then
         w.stepping.Some? && w.stepping.value == t && w.regSync != NEW && NextGo(w, t) && Landing(w) == found
       else
         && w.status == Trapped && NoGo(Queue(w))
         && t in w.released && FileOf(w.released[t]) == found
         && t in w.stepped && FileOf(w.tracee) == FileOf(w.stepped[t])
  }

  /** `_regs`, if the cache was filled before the step, holds what it held then, `k`; if the cache was
      old, it is filled from the tracee after the step. Either way what has been written is laid over. */
  predicate RegsTell(w: World, t: nat, k: File, wasOld: bool, e: Overlay)
    requires w.done <= |w.log|
  {
    var f := w.futureRegs;
    && (e.rip.Some? ==> w.regSync == NEW && f.None?)
    && if wasOld then
         && (t >= w.done ==> w.regSync == OLD)
         && (w.regSync != OLD && f.None? ==> w.regs == Laid(e, FileOf(w.tracee)).regs)
         && (w.regSync != OLD && f.Some? ==> f.value > t && (f.value < w.done ==> w.regs == w.tracee.regs))
       else
         && w.regSync != OLD
         && (f.None? ==> w.regs == Laid(e, k).regs)
         && (f.Some? ==>
               && f.value < t && (f.value < w.done ==> w.regs == k.regs)
               && (t >= w.done && f.value >= w.done ==> SetRegs !in Queue(w) && w.tracee.regs == k.regs))
  }

  predicate NoPoke(q: seq<Command>) {
    forall i | 0 <= i < |q| :: !q[i].PokeDr6?
  }

  /** The same of `_dr6`. */
  predicate Dr6Tells(w: World, t: nat, k: File, wasOld: bool, e: Overlay)
    requires w.done <= |w.log|
  {
    var f := w.futureDr6;
    && (e.dr6.Some? ==> w.regSync == NEW && f.None?)
    && if wasOld then
         && (w.regSync != OLD && f.None? ==> w.dr6 == Laid(e, FileOf(w.tracee)).dr6)
         && (w.regSync != OLD && f.Some? ==> f.value > t && (f.value < w.done ==> PeekedAt(w, f.value) == w.tracee.dr6))
       else
         && (f.None? ==> w.dr6 == Laid(e, k).dr6)
         && (f.Some? ==>
               && f.value < t && (f.value < w.done ==> PeekedAt(w, f.value) == k.dr6)
               && (t >= w.done && f.value >= w.done ==> NoPoke(Queue(w)) && w.tracee.dr6 == k.dr6))
  }

  predicate Window(w: World, t: nat, found: File, k: File, wasOld: bool, e: Overlay)
    requires w.done <= |w.log|
  {
    StepGoesOn(w, t, found) && RegsTell(w, t, k, wasOld, e) && Dr6Tells(w, t, k, wasOld, e)
  }

  // ---------------------------------------------------------------- opening it

  /** The ticket of the command that `l` enqueues to let the thread go. */
  function GoTicket(w: World, l: Label): nat
    requires l.StepBegin? || l.Resume?
  {
    |w.log| + |DirtyRegs(w)| + |l.a| + |DirtyDr6(w)| + |l.b|
  }

  lemma StepOpensWindow(w: World, a: seq<Command>, b: seq<Command>)
    requires CommandsOk(w) && Halted(w) && Enabled(w, StepBegin(a, b))
    ensures Window(Apply(w, StepBegin(a, b)), GoTicket(w, StepBegin(a, b)), Planned(w), Cached(w), w.regSync == OLD,
                   Overlay(None, None))
  {
    hide StepGoesOn, RegsTell, Dr6Tells, CommandsOk, Halted, Apply, Enabled, GoTicket, Planned, Cached;
    StepIsOnItsWay(w, a, b);
    RegsTellAtStep(w, a, b);
    Dr6TellsAtStep(w, a, b);
  }

  lemma StepBeginEffect(w: World, a: seq<Command>, b: seq<Command>)
    requires w.done <= |w.log| && Enabled(w, StepBegin(a, b))
    ensures var w' := Apply(w, StepBegin(a, b));
            && w'.log == w.log + Release(w, a, b, SingleStep) && |w.log| <= GoTicket(w, StepBegin(a, b)) == |w'.log| - 1
            && w'.done == w.done && w'.tracee == w.tracee && w'.status == w.status && w'.peeked == w.peeked
            && w'.regs == w.regs && w'.dr6 == w.dr6 && w'.futureRegs == w.futureRegs && w'.futureDr6 == w.futureDr6
            && w'.state == w.state && w'.stepping == Some(GoTicket(w, StepBegin(a, b)))
            && w'.regSync == if w.regSync == OLD then OLD else SYNC
  {
  }

  lemma StepIsOnItsWay(w: World, a: seq<Command>, b: seq<Command>)
    requires CommandsOk(w) && Halted(w) && Enabled(w, StepBegin(a, b))
    ensures StepGoesOn(Apply(w, StepBegin(a, b)), GoTicket(w, StepBegin(a, b)), Planned(w))
  {
    var w', r := Apply(w, StepBegin(a, b)), Release(w, a, b, SingleStep);
    StepBeginEffect(w, a, b);
    LetGoLandsPlan(w, a, b, SingleStep);
    ReleaseContents(w, a, b, SingleStep);
    assert Landing(w') == Landing(LetGo(w, a, b, SingleStep));
    hide CommandsOk, Landing, Planned, GoTicket, Release, Apply;
    GoIsNext(w, w', r);
  }

  lemma GoIsNext(w: World, w': World, r: seq<Command>)
    requires w.done <= |w.log| && NoGo(Queue(w)) && !w.status.Running?
    requires w'.log == w.log + r && w'.done == w.done && w'.status == w.status
    requires |r| > 0 && Go(r[|r| - 1]) && forall i | 0 <= i < |r| - 1 :: !Go(r[i])
    ensures NextGo(w', |w'.log| - 1)
  {
    forall i | w.done <= i < |w'.log| - 1
      ensures !Go(w'.log[i])
    {
      if i < |w.log| {
        assert w'.log[i] == Queue(w)[i - w.done];
      } else {
        assert w'.log[i] == r[i - |w.log|];
      }
    }
  }

  /** What the step does to the queue, as far as the cache cares. */
  lemma QueueAtStep(w: World, a: seq<Command>, b: seq<Command>)
    requires CommandsOk(w) && Halted(w) && Enabled(w, StepBegin(a, b))
    ensures w.futureRegs.Some? ==> w.futureRegs.value < |w.log| && SetRegs !in Queue(Apply(w, StepBegin(a, b)))
    ensures w.futureDr6.Some? ==> w.futureDr6.value < |w.log| && NoPoke(Queue(Apply(w, StepBegin(a, b))))
  {
    hide Glide, Dangling, NoLateRead, NoReadAheadOfWrite, GoTicket;
    StepBeginEffect(w, a, b);
    QueueIsQuiet(w);
    ReleaseContents(w, a, b, SingleStep);
    assert Queue(Apply(w, StepBegin(a, b))) == Queue(w) + Release(w, a, b, SingleStep);
    if w.futureDr6.Some? {
      NoPokeReleased(w, a, b);
    }
  }

  lemma NoPokeReleased(w: World, a: seq<Command>, b: seq<Command>)
    requires w.futureDr6.Some? && AllForeign(a) && AllForeign(b)
    ensures NoPoke(Release(w, a, b, SingleStep))
  {
    assert DirtyDr6(w) == [] && NoPoke(DirtyRegs(w));
  }

  lemma RegsTellAtStep(w: World, a: seq<Command>, b: seq<Command>)
    requires CommandsOk(w) && Halted(w) && Enabled(w, StepBegin(a, b))
    ensures RegsTell(Apply(w, StepBegin(a, b)), GoTicket(w, StepBegin(a, b)), Cached(w), w.regSync == OLD, Overlay(None, None))
  {
    hide CommandsOk, Apply, GoTicket, Release;
    StepBeginEffect(w, a, b);
    QueueAtStep(w, a, b);
  }

  lemma Dr6TellsAtStep(w: World, a: seq<Command>, b: seq<Command>)
    requires CommandsOk(w) && Halted(w) && Enabled(w, StepBegin(a, b))
    ensures Dr6Tells(Apply(w, StepBegin(a, b)), GoTicket(w, StepBegin(a, b)), Cached(w), w.regSync == OLD, Overlay(None, None))
  {
    hide CommandsOk, Apply, GoTicket, Release;
    StepBeginEffect(w, a, b);
    QueueAtStep(w, a, b);
  }

  // ---------------------------------------------------------------- staying in it

  lemma WorkerKeepsWindow(w: World, l: Label, t: nat, found: File, k: File, wasOld: bool, e: Overlay)
    requires CommandsOk(w) && GoOk(w) && Window(w, t, found, k, wasOld, e) && Enabled(w, l) && l.Worker?
    ensures Window(Apply(w, l), t, found, k, wasOld, e)
  {
    hide Glide, Tick, Dangling, Execute, Apply, RegsTell, Dr6Tells;
    assert Queue(w)[0] == w.log[w.done] && Queue(Execute(w, l.outcome)) == Queue(w)[1..];
    if w.done == t {
      StepIsTaken(w, l.outcome, t, found, k, wasOld, e);
    } else if w.done < t {
      AheadOfStep(w, l.outcome, t, found, k, wasOld, e);
    } else {
      BehindStep(w, l.outcome, t, found, k, wasOld, e);
    }
  }

  lemma StepIsTaken(w: World, outcome: Sight, t: nat, found: File, k: File, wasOld: bool, e: Overlay)
    requires CommandsOk(w) && GoOk(w) && Window(w, t, found, k, wasOld, e) && w.done == t
    ensures Window(Execute(w, outcome), t, found, k, wasOld, e)
  {
    hide Glide, Tick, CommandsOk, RegsTell, Dr6Tells;
    var q, w' := Queue(w), Execute(w, outcome);
    assert Queue(w') == q[1..];
    ReleaseIsLanding(w);
    CacheAtTakenStep(w, outcome, t, found, k, wasOld, e);
  }

  lemma CacheAtTakenStep(w: World, outcome: Sight, t: nat, found: File, k: File, wasOld: bool, e: Overlay)
    requires w.done <= |w.log| && Window(w, t, found, k, wasOld, e) && w.done == t
    ensures RegsTell(Execute(w, outcome), t, k, wasOld, e) && Dr6Tells(Execute(w, outcome), t, k, wasOld, e)
  {
    hide Landing, NoPoke;
    var w' := Execute(w, outcome);
    assert w'.regs == w.regs && w'.peeked == w.peeked;
    hide Execute, NextGo, Queue;
  }

  lemma AheadOfStep(w: World, outcome: Sight, t: nat, found: File, k: File, wasOld: bool, e: Overlay)
    requires CommandsOk(w) && Window(w, t, found, k, wasOld, e) && w.done < t
    ensures Window(Execute(w, outcome), t, found, k, wasOld, e)
  {
    hide Glide, Tick, Dangling, NoReadAheadOfWrite, NoLateRead, Execute, Landing, RegsTell, Dr6Tells;
    var q, w' := Queue(w), Execute(w, outcome);
    assert q[0] == w.log[w.done] && Queue(w') == q[1..];
    TickLands(w, outcome);
    RegsAheadOfStep(w, outcome, t, found, k, wasOld, e);
    Dr6AheadOfStep(w, outcome, t, found, k, wasOld, e);
    assert w'.status == w.status && NextGo(w', t) by {
      NonGoExecute(w, outcome);
    }
  }

  lemma RegsAheadOfStep(w: World, outcome: Sight, t: nat, found: File, k: File, wasOld: bool, e: Overlay)
    requires CommandsOk(w) && StepGoesOn(w, t, found) && RegsTell(w, t, k, wasOld, e) && w.done < t
    ensures RegsTell(Execute(w, outcome), t, k, wasOld, e)
  {
    hide Dangling, NoReadAheadOfWrite, Execute, Landing;
    var q, w' := Queue(w), Execute(w, outcome);
    assert q[0] == w.log[w.done] && Queue(w') == q[1..];
    assert q[0] in q;
    NonGoExecute(w, outcome);
  }

  lemma Dr6AheadOfStep(w: World, outcome: Sight, t: nat, found: File, k: File, wasOld: bool, e: Overlay)
    requires CommandsOk(w) && StepGoesOn(w, t, found) && RegsTell(w, t, k, wasOld, e) && Dr6Tells(w, t, k, wasOld, e) && w.done < t
    ensures Dr6Tells(Execute(w, outcome), t, k, wasOld, e)
  {
    hide Dangling, NoReadAheadOfWrite, NoLateRead, Execute, Landing;
    var q, w' := Queue(w), Execute(w, outcome);
    assert q[0] == w.log[w.done] && Queue(w') == q[1..];
    NonGoExecute(w, outcome);
  }

  lemma TickLands(w: World, outcome: Sight)
    requires w.done < |w.log| && !w.status.Running? && !Go(w.log[w.done])
    ensures Landing(Execute(w, outcome)) == Landing(w)
  {
    hide Glide, Tick, Execute;
    ExecuteIsTick(w, outcome);
  }

  lemma NonGoExecute(w: World, outcome: Sight)
    requires w.done < |w.log| && !w.status.Running? && !Go(w.log[w.done])
    ensures var w', c := Execute(w, outcome), w.log[w.done];
            && w'.status == w.status
            && w'.tracee.regs == (if c == SetRegs then w.regs else w.tracee.regs)
            && w'.tracee.dr6 == (if c.PokeDr6? then c.value else w.tracee.dr6)
            && w'.regs == (if c == GetRegs then w.tracee.regs else w.regs)
            && w'.peeked == if c == PeekDr6 then w.peeked[w.done := w.tracee.dr6] else w.peeked
  {
    match w.log[w.done]
    case PokeDr6(_) =>
    case PokeData(_, _) =>
    case _ =>
  }

  lemma BehindStep(w: World, outcome: Sight, t: nat, found: File, k: File, wasOld: bool, e: Overlay)
    requires CommandsOk(w) && Window(w, t, found, k, wasOld, e) && t < w.done < |w.log|
    ensures Window(Execute(w, outcome), t, found, k, wasOld, e)
  {
    hide CommandsOk, Execute, RegsTell, Dr6Tells, Laid, FileOf;
    BehindIsQuiet(w, outcome, t, found);
    CacheBehindStep(w, outcome, t, found, k, wasOld, e);
    ExecuteRemembers(w, outcome, t);
  }

  lemma BehindIsQuiet(w: World, outcome: Sight, t: nat, found: File)
    requires CommandsOk(w) && StepGoesOn(w, t, found) && t < w.done < |w.log|
    ensures var w', c := Execute(w, outcome), w.log[w.done];
            && w'.status == Trapped && NoGo(Queue(w')) && FileOf(w'.tracee) == FileOf(w.tracee)
            && w'.regs == (if c.GetRegs? then w.tracee.regs else w.regs)
            && w'.peeked == if c.PeekDr6? then w.peeked[w.done := w.tracee.dr6] else w.peeked
  {
    hide Glide, Tick, Dangling, NoReadAheadOfWrite, Execute;
    var q := Queue(w);
    assert q[0] == w.log[w.done] && Queue(Execute(w, outcome)) == q[1..];
    QueueIsQuiet(w);
    QuietExecute(w, outcome);
  }

  lemma CacheBehindStep(w: World, outcome: Sight, t: nat, found: File, k: File, wasOld: bool, e: Overlay)
    requires CommandsOk(w) && Window(w, t, found, k, wasOld, e) && t < w.done < |w.log|
    ensures RegsTell(Execute(w, outcome), t, k, wasOld, e) && Dr6Tells(Execute(w, outcome), t, k, wasOld, e)
  {
    hide Dangling, NoReadAheadOfWrite, Execute;
    assert Queue(w)[0] == w.log[w.done];
    BehindIsQuiet(w, outcome, t, found);
    hide StepGoesOn;
  }

  lemma OthersKeepWindow(w: World, l: Label, t: nat, found: File, k: File, wasOld: bool, e: Overlay)
    requires w.done <= |w.log| && Window(w, t, found, k, wasOld, e) && Enabled(w, l) && InWindow(l) && !l.Worker?
    ensures Window(Apply(w, l), t, found, k, wasOld, Written(e, l))
  {
    hide Apply, Window;
    match l
    case Produce(c) => ProduceKeepsWindow(w, c, t, found, k, wasOld, e);
    case Read(a) => ReadKeepsWindow(w, a, t, found, k, wasOld, e);
    case AwaitRegs => AwaitKeepsWindow(w, l, t, found, k, wasOld, e);
    case AwaitDr6 => AwaitKeepsWindow(w, l, t, found, k, wasOld, e);
    case StepEnd => AwaitKeepsWindow(w, l, t, found, k, wasOld, e);
    case Jump(_) => WriteKeepsWindow(w, l, t, found, k, wasOld, e);
    case SetDr6(_) => WriteKeepsWindow(w, l, t, found, k, wasOld, e);
    case Trap(_) => StaysStopped(w, t, found, k, wasOld, e);
  }

  lemma StaysStopped(w: World, t: nat, found: File, k: File, wasOld: bool, e: Overlay)
    requires w.done <= |w.log| && Window(w, t, found, k, wasOld, e)
    ensures !w.status.Running?
  {
  }

  lemma AwaitKeepsWindow(w: World, l: Label, t: nat, found: File, k: File, wasOld: bool, e: Overlay)
    requires w.done <= |w.log| && Window(w, t, found, k, wasOld, e) && l in {AwaitRegs, AwaitDr6, StepEnd} && Enabled(w, l)
    ensures Window(Apply(w, l), t, found, k, wasOld, e)
  {
    hide Landing, RegsTell, Dr6Tells;
    assert Queue(Apply(w, l)) == Queue(w);
    AwaitKeepsLanding(w, l);
    AwaitKeepsCache(w, l, t, found, k, wasOld, e);
  }

  lemma AwaitKeepsLanding(w: World, l: Label)
    requires w.done <= |w.log| && l in {AwaitRegs, AwaitDr6, StepEnd} && Enabled(w, l)
    ensures Landing(Apply(w, l)) == Landing(w)
  {
    hide Glide;
    assert Start(Apply(w, l)) == Start(w) && Queue(Apply(w, l)) == Queue(w);
  }

  lemma AwaitKeepsCache(w: World, l: Label, t: nat, found: File, k: File, wasOld: bool, e: Overlay)
    requires w.done <= |w.log| && Window(w, t, found, k, wasOld, e) && l in {AwaitRegs, AwaitDr6, StepEnd} && Enabled(w, l)
    ensures RegsTell(Apply(w, l), t, k, wasOld, e) && Dr6Tells(Apply(w, l), t, k, wasOld, e)
  {
    AwaitKeepsRegs(w, l, t, found, k, wasOld, e);
    AwaitKeepsDr6(w, l, t, found, k, wasOld, e);
  }

  lemma AwaitKeepsRegs(w: World, l: Label, t: nat, found: File, k: File, wasOld: bool, e: Overlay)
    requires w.done <= |w.log| && RegsTell(w, t, k, wasOld, e) && l in {AwaitRegs, AwaitDr6, StepEnd} && Enabled(w, l)
    ensures RegsTell(Apply(w, l), t, k, wasOld, e)
  {
    assert Queue(Apply(w, l)) == Queue(w);
  }

  lemma AwaitKeepsDr6(w: World, l: Label, t: nat, found: File, k: File, wasOld: bool, e: Overlay)
    requires w.done <= |w.log| && Dr6Tells(w, t, k, wasOld, e) && l in {AwaitRegs, AwaitDr6, StepEnd} && Enabled(w, l)
    ensures Dr6Tells(Apply(w, l), t, k, wasOld, e)
  {
    assert Queue(Apply(w, l)) == Queue(w);
  }

  lemma WriteKeepsWindow(w: World, l: Label, t: nat, found: File, k: File, wasOld: bool, e: Overlay)
    requires w.done <= |w.log| && Window(w, t, found, k, wasOld, e) && (l.Jump? || l.SetDr6?) && Enabled(w, l)
    ensures Window(Apply(w, l), t, found, k, wasOld, Written(e, l))
  {
    hide Landing;
    assert Queue(Apply(w, l)) == Queue(w);
  }

  lemma ProduceKeepsWindow(w: World, c: Command, t: nat, found: File, k: File, wasOld: bool, e: Overlay)
    requires w.done <= |w.log| && Window(w, t, found, k, wasOld, e) && Enabled(w, Produce(c))
    ensures Window(Apply(w, Produce(c)), t, found, k, wasOld, e)
  {
    hide Window;
    AppendKeepsWindow(w, Apply(w, Produce(c)), [c], t, found, k, wasOld, e);
  }

  lemma AppendKeepsWindow(w: World, w': World, a: seq<Command>, t: nat, found: File, k: File, wasOld: bool, e: Overlay)
    requires w.done <= |w.log| && Window(w, t, found, k, wasOld, e) && AllForeign(a) && w' == w.(log := w.log + a)
    ensures Window(w', t, found, k, wasOld, e)
  {
    hide Landing, RegsTell, Dr6Tells;
    AppendQuiet(w, w', a);
    AppendKeepsCache(w, w', a, t, k, wasOld, e);
  }

  lemma AppendKeepsCache(w: World, w': World, a: seq<Command>, t: nat, k: File, wasOld: bool, e: Overlay)
    requires w.done <= |w.log| && RegsTell(w, t, k, wasOld, e) && Dr6Tells(w, t, k, wasOld, e)
    requires AllForeign(a) && w' == w.(log := w.log + a)
    ensures RegsTell(w', t, k, wasOld, e) && Dr6Tells(w', t, k, wasOld, e)
  {
    hide NoPoke, Laid, FileOf;
    assert Queue(w') == Queue(w) + a;
    ForeignWritesNothing(Queue(w), a);
  }

  lemma ForeignWritesNothing(q: seq<Command>, a: seq<Command>)
    requires AllForeign(a)
    ensures SetRegs !in q ==> SetRegs !in q + a
    ensures NoPoke(q) ==> NoPoke(q + a)
  {
  }

  lemma ReadKeepsWindow(w: World, a: seq<Command>, t: nat, found: File, k: File, wasOld: bool, e: Overlay)
    requires w.done <= |w.log| && Window(w, t, found, k, wasOld, e) && Enabled(w, Read(a))
    ensures Window(Apply(w, Read(a)), t, found, k, wasOld, e)
  {
    hide Landing;
    if w.regSync == OLD {
      AppendQuiet(w, ReadRegisters(w, a), [PeekDr6] + a + [GetRegs]);
    } else {
      hide Window;
      ReadIsNothing(w, a, t, found, k, wasOld, e);
      AppendKeepsWindow(w, Apply(w, Read(a)), a, t, found, k, wasOld, e);
    }
  }

  lemma ReadIsNothing(w: World, a: seq<Command>, t: nat, found: File, k: File, wasOld: bool, e: Overlay)
    requires w.done <= |w.log| && w.regSync != OLD && Enabled(w, Read(a))
    ensures AllForeign(a) && Apply(w, Read(a)) == w.(log := w.log + a)
  {
  }

  lemma {:induction false} WindowStaysOpen(w0: World, a: seq<Label>, s: Label, b: seq<Label>)
    requires Init(w0) && RunOk(w0, a) && Halted(Exec(w0, a))
    requires s.StepBegin? && RunOk(w0, a + [s] + b) && AllInWindow(b)
    ensures var w := Exec(w0, a);
            Window(Exec(w0, a + [s] + b), GoTicket(w, s), Planned(w), Cached(w), w.regSync == OLD, AllWritten(b))
    decreases |b|
  {
    hide Window, Inv, Apply, Enabled, Halted, GoTicket, Planned, Cached;
    var w := Exec(w0, a);
    if b == [] {
      assert a + [s] + b == a + [s] && DropLast(a + [s]) == a;
      RunKeepsInv(w0, a);
      InvParts(w, Due(w0, a));
      StepOpensWindow(w, s.a, s.b);
    } else {
      var c, l := b[..|b| - 1], b[|b| - 1];
      assert DropLast(a + [s] + b) == a + [s] + c && (a + [s] + b)[|a + [s] + b| - 1] == l;
      WindowStaysOpen(w0, a, s, c);
      RunKeepsInv(w0, a + [s] + c);
      InvParts(Exec(w0, a + [s] + c), Due(w0, a + [s] + c));
      if l.Worker? {
        WorkerKeepsWindow(Exec(w0, a + [s] + c), l, GoTicket(w, s), Planned(w), Cached(w), w.regSync == OLD, AllWritten(c));
      } else {
        OthersKeepWindow(Exec(w0, a + [s] + c), l, GoTicket(w, s), Planned(w), Cached(w), w.regSync == OLD, AllWritten(c));
      }
    }
  }

  // ---------------------------------------------------------------- reads

  /** A step taken from a halted thread in any run, any reads and writes after it, and no report. What has
      been read is what the step left, with the writes since, exactly if the cache was old when the step was
      begun or holds just that; otherwise it is what the cache held before the step, with the writes since. */
  lemma {:induction false} ReadInWindowIsRightExactlyIf(w0: World, a: seq<Label>, s: Label, b: seq<Label>)
    requires Init(w0) && RunOk(w0, a) && Halted(Exec(w0, a))
    requires s.StepBegin? && RunOk(w0, a + [s] + b) && AllInWindow(b)
    requires var w' := Exec(w0, a + [s] + b); w'.stepping.None? && w'.regSync != OLD
    ensures var w, w', t := Exec(w0, a), Exec(w0, a + [s] + b), GoTicket(Exec(w0, a), s);
            && t in w'.stepped && FileOf(w'.stepped[t]) == FileOf(w'.tracee)
            && var right, kept := Laid(AllWritten(b), FileOf(w'.tracee)), Laid(AllWritten(b), Cached(w));
               && (w'.futureRegs.None? ==>
                     && (w'.regs == right.regs <==> w.regSync == OLD || kept.regs == right.regs)
                     && (w.regSync != OLD ==> w'.regs == kept.regs))
               && (w'.futureDr6.None? ==>
                     && (w'.dr6 == right.dr6 <==> w.regSync == OLD || kept.dr6 == right.dr6)
                     && (w.regSync != OLD ==> w'.dr6 == kept.dr6))
  {
    hide Exec, RunOk, Inv, Landing, GoOk, NextGo, Cached, Laid, AllWritten, GoTicket;
    WindowStaysOpen(w0, a, s, b);
    RunKeepsInv(w0, a + [s] + b);
    var w := Exec(w0, a);
    StepHasEnded(Exec(w0, a + [s] + b), Due(w0, a + [s] + b), GoTicket(w, s), Planned(w), Cached(w), w.regSync == OLD, AllWritten(b));
  }

  lemma StepHasEnded(w: World, file: File, t: nat, found: File, k: File, wasOld: bool, e: Overlay)
    requires Inv(w, file) && Window(w, t, found, k, wasOld, e) && w.stepping.None?
    ensures t < w.done && CommandsOk(w) && Halted(w)
  {
  }

  // ---------------------------------------------------------------- resumptions

  /** Resuming from the window: what the CONT will find. */
  lemma ResumeFromWindow(w: World, r: Label, t: nat, found: File, k: File, wasOld: bool, e: Overlay)
    requires CommandsOk(w) && Halted(w) && Window(w, t, found, k, wasOld, e) && t < w.done && r.Resume? && Enabled(w, r)
    ensures var u, right, kept := Apply(w, r), Laid(e, FileOf(w.tracee)), Laid(e, k);
            && |u.log| == GoTicket(w, r) + 1 && NextGo(u, GoTicket(w, r)) && u.log[GoTicket(w, r)].Cont?
            && Landing(u).regs == (if w.regSync == NEW && w.futureRegs.None? && !wasOld then kept.regs else right.regs)
            && Landing(u).dr6 == (if w.regSync == NEW && w.futureDr6.None? && !wasOld then kept.dr6 else right.dr6)
  {
    hide Glide, Dangling, NoLateRead, NoReadAheadOfWrite;
    QueueIsQuiet(w);
    LetGoLandsPlan(w, r.a, r.b, Cont(r.signum));
    ResumeIsNext(w, r);
  }

  lemma ResumeIsNext(w: World, r: Label)
    requires Halted(w) && r.Resume? && Enabled(w, r)
    ensures |Apply(w, r).log| == GoTicket(w, r) + 1 && NextGo(Apply(w, r), GoTicket(w, r)) && Apply(w, r).log[GoTicket(w, r)].Cont?
    ensures Landing(Apply(w, r)) == Landing(LetGo(w, r.a, r.b, Cont(r.signum)))
  {
    var q := Release(w, r.a, r.b, Cont(r.signum));
    assert Apply(w, r).log == w.log + q;
    ReleaseContents(w, r.a, r.b, Cont(r.signum));
    GoIsNext(w, Apply(w, r), q);
  }

  /** The same run, and then a resumption before any report. Its CONT finds what the step left, with the
      writes since, exactly if it writes nothing back, or the cache was old when the step was begun, or the
      cache held just that; otherwise a write to one register puts back everything from before the step. */
  lemma {:induction false} ReleaseFromWindowIsRightExactlyIf(w0: World, a: seq<Label>, s: Label, b: seq<Label>, r: Label)
    requires Init(w0) && RunOk(w0, a) && Halted(Exec(w0, a)) && s.StepBegin? && r.Resume?
    requires RunOk(w0, a + [s] + b) && AllInWindow(b) && Enabled(Exec(w0, a + [s] + b), r)
    ensures RunOk(w0, a + [s] + b + [r])
    ensures var w, v, u := Exec(w0, a), Exec(w0, a + [s] + b), Exec(w0, a + [s] + b + [r]);
            var t, go := GoTicket(w, s), GoTicket(v, r);
            && t in v.stepped && FileOf(v.stepped[t]) == FileOf(v.tracee)
            && go < |u.log| && u.log[go].Cont? && ReleasedAs(u, go, Ahead(u).sight)
            && var sees, right, kept := FileOf(Ahead(u).sight), Laid(AllWritten(b), FileOf(v.tracee)), Laid(AllWritten(b), Cached(w));
               var back := v.regSync == NEW && w.regSync != OLD;
               && (sees.regs == right.regs <==> !(back && v.futureRegs.None?) || kept.regs == right.regs)
               && (sees.dr6 == right.dr6 <==> !(back && v.futureDr6.None?) || kept.dr6 == right.dr6)
               && (back && v.futureRegs.None? ==> sees.regs == kept.regs)
               && (back && v.futureDr6.None? ==> sees.dr6 == kept.dr6)
               && (AllWritten(b).rip.Some? ==> v.regSync == NEW && v.futureRegs.None?)
               && (AllWritten(b).dr6.Some? ==> v.regSync == NEW && v.futureDr6.None?)
  {
    hide Exec, RunOk, Apply, Enabled, Inv, NextGo, Cached, Laid, AllWritten, GoTicket, Ahead;
    var w, v := Exec(w0, a), Exec(w0, a + [s] + b);
    WindowStaysOpen(w0, a, s, b);
    RunKeepsInv(w0, a + [s] + b);
    ResumeIsFree(v, r);
    StepHasEnded(v, Due(w0, a + [s] + b), GoTicket(w, s), Planned(w), Cached(w), w.regSync == OLD, AllWritten(b));
    ResumeFromWindow(v, r, GoTicket(w, s), Planned(w), Cached(w), w.regSync == OLD, AllWritten(b));
    ExecSnoc(w0, a + [s] + b, r);
    NextGoIsAhead(Apply(v, r), GoTicket(v, r));
  }

  lemma ResumeIsFree(w: World, r: Label)
    requires w.done <= |w.log| && r.Resume? && Enabled(w, r)
    ensures w.stepping.None?
  {
  }

  lemma NextGoIsAhead(u: World, go: nat)
    requires u.done <= |u.log| && NextGo(u, go)
    ensures ReleasedAs(u, go, Ahead(u).sight)
  {
  }

  /** So a jump right after a step, resumed before the step is reported, undoes the step unless nothing had
      been read since the last report. */
  lemma JumpAfterStepIsRightExactlyIf(w0: World, a: seq<Label>, s: Label, b: seq<Label>, addr: Word64, r: Label)
    requires Init(w0) && RunOk(w0, a) && Halted(Exec(w0, a)) && s.StepBegin? && r.Resume?
    requires AllInWindow(b) && AllWritten(b) == Overlay(None, None)
    requires RunOk(w0, a + [s] + (b + [Jump(addr)])) && Enabled(Exec(w0, a + [s] + (b + [Jump(addr)])), r)
    ensures RunOk(w0, a + [s] + (b + [Jump(addr)]) + [r])
    ensures var w, v, u := Exec(w0, a), Exec(w0, a + [s] + (b + [Jump(addr)])), Exec(w0, a + [s] + (b + [Jump(addr)]) + [r]);
            var t, go := GoTicket(w, s), GoTicket(v, r);
            && t in v.stepped && go < |u.log| && ReleasedAs(u, go, Ahead(u).sight)
            && var right, kept := v.stepped[t].regs.(rip := addr), Cached(w).regs.(rip := addr);
               && (Ahead(u).sight.regs == right <==> w.regSync == OLD || kept == right)
               && (w.regSync != OLD ==> Ahead(u).sight.regs == kept)
  {
    hide Exec, RunOk, Enabled, Ahead, Cached, GoTicket, ReleasedAs;
    var c := b + [Jump(addr)];
    assert c[..|c| - 1] == b;
    assert AllWritten(c) == Overlay(Some(addr), None);
    ReleaseFromWindowIsRightExactlyIf(w0, a, s, c, r);
  }

  /** If the report comes before the resumption instead, it drops the writes: the CONT finds the tracee as
      the step left it. */
  lemma {:induction false} ReportDropsWrites(w0: World, a: seq<Label>, s: Label, b: seq<Label>, r: Label)
    requires Init(w0) && RunOk(w0, a) && Halted(Exec(w0, a)) && s.StepBegin? && r.Resume?
    requires RunOk(w0, a + [s] + b) && AllInWindow(b) && Enabled(Exec(w0, a + [s] + b), r)
    ensures RunOk(w0, a + [s] + b + [ReportStop]) && RunOk(w0, a + [s] + b + [ReportStop] + [r])
    ensures var v, u := Exec(w0, a + [s] + b), Exec(w0, a + [s] + b + [ReportStop] + [r]);
            && GoTicket(Exec(w0, a), s) in v.stepped
            && FileOf(Ahead(u).sight) == FileOf(v.stepped[GoTicket(Exec(w0, a), s)])
            && (FileOf(Ahead(u).sight) == Laid(AllWritten(b), FileOf(v.tracee))
                <==> Laid(AllWritten(b), FileOf(v.tracee)) == FileOf(v.tracee))
  {
    hide Exec, RunOk, Apply, Enabled, Inv, NextGo, Cached, Laid, AllWritten, GoTicket, Ahead;
    var w, v := Exec(w0, a), Exec(w0, a + [s] + b);
    WindowStaysOpen(w0, a, s, b);
    RunKeepsInv(w0, a + [s] + b);
    ResumeIsFree(v, r);
    StepHasEnded(v, Due(w0, a + [s] + b), GoTicket(w, s), Planned(w), Cached(w), w.regSync == OLD, AllWritten(b));
    ReportThenResume(v, r);
    ExecSnoc(w0, a + [s] + b, ReportStop);
    ExecSnoc(w0, a + [s] + b + [ReportStop], r);
  }

  lemma ReportThenResume(w: World, r: Label)
    requires CommandsOk(w) && Halted(w) && w.status == Trapped && r.Resume? && Enabled(w, r)
    ensures Enabled(w, ReportStop) && Enabled(Apply(w, ReportStop), r)
    ensures Landing(Apply(Apply(w, ReportStop), r)) == FileOf(w.tracee)
  {
    hide Glide, Dangling, NoLateRead, NoReadAheadOfWrite;
    var w1 := Apply(w, ReportStop);
    assert Queue(w1) == Queue(w);
    QueueIsQuiet(w);
    QueueIsQuiet(w1);
    LetGoLandsPlan(w1, r.a, r.b, Cont(r.signum));
    ResumeIsNext(w1, r);
  }

  // ---------------------------------------------------------------- from the start

  /** Reading the registers of a thread that has just been created. */
  lemma ReadFirst(w0: World, outcome: Sight) returns (ls: seq<Label>, w: World)
    requires Init(w0) && Queue(w0) == [] && |outcome.mem| == |w0.tracee.mem|
    ensures Leads(w0, ls, w)
    ensures w.state == STOPPED && w.regSync == SYNC && w.status == Reported && w.stepping.None? && w.futureRegs.None?
    ensures w.done == |w.log| && w.tracee == w0.tracee && w.regs == w0.tracee.regs && w.futureDr6.Some?
  {
    hide Leads, Exec, RunOk;
    var l1, l2, l3 := Read([]), Worker(outcome), AwaitRegs;
    LeadsNowhere(w0);
    var w1 := Apply(w0, l1);
    assert w1.log == w0.log + [PeekDr6, GetRegs];
    LeadsOn(w0, [], w0, l1);
    var w2 := Apply(w1, l2);
    LeadsOn(w0, [] + [l1], w1, l2);
    var w3 := Apply(w2, l2);
    LeadsOn(w0, [] + [l1] + [l2], w2, l2);
    LeadsOn(w0, [] + [l1] + [l2] + [l2], w3, l3);
    ls, w := [] + [l1] + [l2] + [l2] + [l3], Apply(w3, l3);
  }

  /** Stepping a thread that stands idle. */
  lemma StepIdle(w: World, outcome: Sight) returns (ls: seq<Label>, w': World)
    requires w.state == STOPPED && !w.status.Running? && w.stepping.None? && w.regSync != NEW
    requires w.done == |w.log| && |outcome.mem| == |w.tracee.mem|
    ensures Leads(w, ls, w')
    ensures w'.state == STOPPED && w'.regSync == w.regSync && w'.status == Trapped && w'.stepping.None?
    ensures w'.futureRegs == w.futureRegs && w'.futureDr6 == w.futureDr6 && w'.regs == w.regs
    ensures w'.done == |w'.log| && w'.tracee == outcome
  {
    hide Leads, Exec, RunOk;
    var l1, l2, l3 := StepBegin([], []), Worker(outcome), StepEnd;
    LeadsNowhere(w);
    var w1 := Apply(w, l1);
    assert w1.log == w.log + [SingleStep];
    LeadsOn(w, [], w, l1);
    var w2 := Apply(w1, l2);
    LeadsOn(w, [] + [l1], w1, l2);
    LeadsOn(w, [] + [l1] + [l2], w2, l3);
    ls, w' := [] + [l1] + [l2] + [l3], Apply(w2, l3);
  }

  /** Wrong reads do happen: from the start, a read and a step lead to a cache that is taken for good and
      is not, whenever the step changes a register. */
  lemma StaleReadHappens(w0: World, outcome: Sight) returns (ls: seq<Label>, w: World)
    requires Init(w0) && Queue(w0) == [] && |outcome.mem| == |w0.tracee.mem| && outcome.regs != w0.tracee.regs
    ensures RunOk(w0, ls) && Exec(w0, ls) == w
    ensures w.state == STOPPED && w.regSync == SYNC && w.futureRegs.None? && w.stepping.None? && w.regs != w.tracee.regs
    ensures w.status == Trapped && w.done == |w.log| && w.futureDr6.Some?
    ensures w.regs == w0.tracee.regs && w.tracee == outcome
  {
    hide Exec, RunOk, Init;
    var a, v := ReadFirst(w0, outcome);
    var b;
    b, w := StepIdle(v, outcome);
    LeadsThrough(w0, a, v, b, w);
    ls := a + b;
  }

  /** And lost steps: a jump and a resumption on top of that, and the thread runs from the registers that
      it had before the step. */
  lemma LostStepHappens(w0: World, outcome: Sight, addr: Word64) returns (ls: seq<Label>, w: World)
    requires Init(w0) && Queue(w0) == [] && |outcome.mem| == |w0.tracee.mem| && outcome.regs != w0.tracee.regs
    ensures RunOk(w0, ls) && Exec(w0, ls) == w
    ensures w.status == Running && w.tracee.regs == w0.tracee.regs.(rip := addr)
  {
    hide Exec, RunOk, Init, Leads;
    var a, v := StaleReadHappens(w0, outcome);
    LeadsBy(w0, a, v);
    var l1, l2, l3 := Jump(addr), Resume(0, [], []), Worker(outcome);
    var v1 := Apply(v, l1);
    LeadsOn(w0, a, v, l1);
    var v2 := Apply(v1, l2);
    assert v2.log == v.log + [SetRegs, Cont(0)];
    LeadsOn(w0, a + [l1], v1, l2);
    var v3 := Apply(v2, l3);
    LeadsOn(w0, a + [l1] + [l2], v2, l3);
    LeadsOn(w0, a + [l1] + [l2] + [l3], v3, l3);
    ls, w := a + [l1] + [l2] + [l3] + [l3], Apply(v3, l3);
    LeadsTo(w0, ls, w);
  }

  lemma LeadsBy(w: World, ls: seq<Label>, w': World)
    requires RunOk(w, ls) && Exec(w, ls) == w'
    ensures Leads(w, ls, w')
  {
  }

  lemma LeadsTo(w: World, ls: seq<Label>, w': World)
    requires Leads(w, ls, w')
    ensures RunOk(w, ls) && Exec(w, ls) == w'
  {
  }
}
