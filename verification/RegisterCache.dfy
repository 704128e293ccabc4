/**
 The lazy write-back register cache of SpiedThread refines a direct register file, for every
 run of client calls, events and worker iterations.
 */
module RegisterCache {
  import opened Options
  import opened Words
  import opened Ptrace

  // ---------------------------------------------------------------- the specification

  /** A register file with no cache and no queue. */
  datatype File = File(regs: Regs, dr6: bv64)

  /** The direct register file: loaded from the tracee when a stop is reported, then changed by
      jump and setDr6 and by nothing else. */
  function Direct(w0: World, ls: seq<Label>): File
    requires RunOk(w0, ls)
    decreases |ls|
  {
    if ls == [] then File(w0.tracee.regs, w0.tracee.dr6)
    else
      var w, l := Exec(w0, DropLast(ls)), ls[|ls| - 1];
      EditFrom(w, Direct(w0, DropLast(ls)), l)
  }

  /** What a label that happens in `w` makes of the direct register file. */
  function EditFrom(w: World, file: File, l: Label): File {
    Edit(file, File(w.tracee.regs, w.tracee.dr6), w.state == STOPPED, l)
  }

  /** What a label makes of a register file; a report loads `loaded`, and setDr6 counts while the
      thread is known to be stopped. */
  function Edit(file: File, loaded: File, stopped: bool, l: Label): File {
    match l
    case ReportStop => loaded
    case Jump(addr) => file.(regs := file.regs.(rip := addr))
    case SetDr6(value) => if stopped then file.(dr6 := value) else file
    case _ => file
  }

  /** The thread is stopped, its stop has been reported, and no singleStep is under way. */
  predicate Settled(w: World) {
    w.state == STOPPED && w.status == Reported && w.stepping.None?
  }

  /** Moreover nothing queued will let it go. */
  predicate AtRest(w: World)
    requires w.done <= |w.log|
  {
    Settled(w) && NoGo(Queue(w))
  }

  // ---------------------------------------------------------------- running the queue ahead

  /** A stopped tracee and the `_regs` buffer while commands run, up to the first one that lets
      the tracee go. */
  datatype Glider = Glider(sight: Sight, buffer: Regs, gone: bool)

  function Tick(g: Glider, c: Command): Glider {
    if g.gone then g
    else
      match c
      case GetRegs => g.(buffer := g.sight.regs)
      case SetRegs => g.(sight := g.sight.(regs := g.buffer))
      case PokeDr6(value) => g.(sight := g.sight.(dr6 := value))
      case PokeData(addr, word) => g.(sight := g.sight.(mem := Poke(g.sight.mem, addr, word)))
      case Cont(_) => g.(gone := true)
      case SingleStep => g.(gone := true)
      case PeekDr6 => g
      case Other(_) => g
  }

  function Glide(g: Glider, q: seq<Command>): Glider {
    if q == [] then g else Tick(Glide(g, q[..|q| - 1]), q[|q| - 1])
  }

  function Start(w: World): Glider {
    Glider(w.tracee, w.regs, false)
  }

  /** What the tracee will look like when the queued commands have run, or at the first one that
      lets it go. */
  function Ahead(w: World): Glider
    requires w.done <= |w.log|
  {
    Glide(Start(w), Queue(w))
  }

  /** The register file that the tracee will be let go with. A report that comes while a resumption
      is queued already finds this file determined; otherwise it is the direct one. */
  function Due(w0: World, ls: seq<Label>): File
    requires RunOk(w0, ls)
    decreases |ls|
  {
    if ls == [] then File(w0.tracee.regs, w0.tracee.dr6)
    else
      var w, l := Exec(w0, DropLast(ls)), ls[|ls| - 1];
      Edit(Due(w0, DropLast(ls)), Landing(w), w.state == STOPPED, l)
  }

  /** The registers ahead. */
  function Landing(w: World): File
    requires w.done <= |w.log|
  {
    File(Ahead(w).sight.regs, Ahead(w).sight.dr6)
  }

  lemma {:induction false} GlideHead(g: Glider, q: seq<Command>)
    requires q != []
    ensures Glide(g, q) == Glide(Tick(g, q[0]), q[1..])
  {
    if |q| > 1 {
      var front := q[..|q| - 1];
      GlideHead(g, front);
      assert q[1..][..|q| - 2] == front[1..];
    } else {
      assert Glide(g, q[..0]) == g;
    }
  }

  lemma {:induction false} GlideConcat(g: Glider, q: seq<Command>, r: seq<Command>)
    ensures Glide(g, q + r) == Glide(Glide(g, q), r)
  {
    if r == [] {
      assert q + r == q;
    } else {
      GlideConcat(g, q, r[..|r| - 1]);
      assert (q + r)[..|q + r| - 1] == q + r[..|r| - 1];
    }
  }

  /** Once the tracee is gone nothing more happens to it. */
  lemma {:induction false} GlideGone(g: Glider, q: seq<Command>)
    requires g.gone
    ensures Glide(g, q) == g
  {
    if q != [] {
      GlideGone(g, q[..|q| - 1]);
    }
  }

  /** The tracee is gone exactly if something lets it go. */
  lemma {:induction false} GoneExactlyIf(g: Glider, q: seq<Command>)
    requires !g.gone
    ensures Glide(g, q).gone <==> !NoGo(q)
  {
    if q != [] {
      var front := q[..|q| - 1];
      GoneExactlyIf(g, front);
      assert forall i | 0 <= i < |front| :: front[i] == q[i];
      assert NoGo(q) <==> NoGo(front) && !Go(q[|q| - 1]);
    }
  }

  predicate Quiet(q: seq<Command>) {
    forall i | 0 <= i < |q| :: !Go(q[i]) && !WriteBack(q[i])
  }

  /** Commands that write nothing back leave the registers alone. */
  lemma {:induction false} GlideQuiet(g: Glider, q: seq<Command>)
    requires Quiet(q) && !g.gone
    ensures Glide(g, q).sight.regs == g.sight.regs
    ensures Glide(g, q).sight.dr6 == g.sight.dr6
    ensures !Glide(g, q).gone
    ensures (forall i | 0 <= i < |q| :: !q[i].GetRegs?) ==> Glide(g, q).buffer == g.buffer
  {
    if q != [] {
      GlideQuiet(g, q[..|q| - 1]);
    }
  }

  // ---------------------------------------------------------------- the invariant

  /** Some write-back is not followed by the command it was queued for. */
  predicate Dangling(q: seq<Command>) {
    q != [] && !Go(q[|q| - 1]) && (WriteBack(q[|q| - 1]) || Dangling(q[..|q| - 1]))
  }

  lemma {:induction false} DanglingTail(q: seq<Command>)
    requires q != [] && Dangling(q[1..])
    ensures Dangling(q)
  {
    if |q| > 1 {
      assert q[1..][..|q| - 2] == q[..|q| - 1][1..];
      if !WriteBack(q[|q| - 1]) {
        DanglingTail(q[..|q| - 1]);
      }
    }
  }

  lemma {:induction false} QuietOrDangling(q: seq<Command>)
    requires NoGo(q) && !Dangling(q)
    ensures Quiet(q)
  {
    if q != [] {
      var front := q[..|q| - 1];
      assert forall i | 0 <= i < |front| :: front[i] == q[i];
      QuietOrDangling(front);
      assert forall i | 0 <= i < |front| :: !WriteBack(q[i]) by {
        assert forall i | 0 <= i < |front| :: !WriteBack(front[i]);
      }
    }
  }

  /** Requests that write nothing back leave nothing dangling that was not. */
  lemma {:induction false} DanglingQuiet(q: seq<Command>, a: seq<Command>)
    requires Quiet(a)
    ensures Dangling(q + a) == Dangling(q)
  {
    if a == [] {
      assert q + a == q;
    } else {
      DanglingQuiet(q, a[..|a| - 1]);
      assert (q + a)[..|q + a| - 1] == q + a[..|a| - 1];
    }
  }

  predicate FutureOk(log: seq<Command>, future: Option<nat>, c: Command) {
    future.Some? ==> future.value < |log| && log[future.value] == c
  }

  /** A queued read of the registers is no later than the one the current future awaits; in
      particular there is none when the future is not valid. */
  predicate NoLateRead(q: seq<Command>, done: nat, future: Option<nat>) {
    forall i | 0 <= i < |q| :: q[i].GetRegs? ==> future.Some? && done + i <= future.value
  }

  /** No read into the buffer is queued ahead of a SETREGS, which takes its value from there. */
  predicate NoReadAheadOfWrite(q: seq<Command>) {
    forall i, j | 0 <= i < j < |q| :: q[j] == SetRegs ==> q[i] != GetRegs
  }

  predicate CommandsOk(w: World)
    ensures CommandsOk(w) ==> w.done <= |w.log|
  {
    && w.done <= |w.log|
    && FutureOk(w.log, w.futureRegs, GetRegs)
    && FutureOk(w.log, w.futureDr6, PeekDr6)
    && NoLateRead(Queue(w), w.done, w.futureRegs)
    && NoReadAheadOfWrite(Queue(w))
    && !Dangling(Queue(w))
  }

  /** Nothing after ticket `t` lets the tracee go. */
  predicate LastGo(q: seq<Command>, done: nat, t: nat) {
    forall i | 0 <= i < |q| :: Go(q[i]) ==> done + i <= t
  }

  /** What is awaited comes after everything that lets the tracee go. */
  predicate GoBefore(q: seq<Command>, done: nat, future: Option<nat>) {
    if future.Some? then forall i | 0 <= i < |q| :: Go(q[i]) ==> done + i < future.value else NoGo(q)
  }

  /** What the client-side state says about commands that let the tracee run. */
  predicate GoOk(w: World)
    requires w.done <= |w.log|
  {
    var q := Queue(w);
    && (w.state == STOPPED && w.stepping.None? && w.regSync != OLD ==>
          GoBefore(q, w.done, w.futureRegs) && GoBefore(q, w.done, w.futureDr6) && (w.regSync == NEW ==> NoGo(q)))
    && (w.stepping.Some? ==>
          && w.regSync != NEW
          && w.stepping.value < |w.log| && w.log[w.stepping.value].SingleStep?
          && LastGo(q, w.done, w.stepping.value))
    && (FutureReady(w, w.stepping) ==> w.status != Reported)
    && (w.status == Reported && NoGo(q) ==> w.state == STOPPED)
  }

  /** In a settled thread a part of the cache that has been read agrees with the tracee. */
  predicate Fresh(w: World) {
    Settled(w) && w.regSync != OLD ==>
      && (FutureReady(w, w.futureRegs) ==> w.regs == w.tracee.regs)
      && (w.futureRegs.None? && w.regSync == SYNC ==> w.regs == w.tracee.regs)
      && (FutureReady(w, w.futureDr6) ==> w.futureDr6.value in w.peeked && w.peeked[w.futureDr6.value] == w.tracee.dr6)
      && (w.futureDr6.None? && w.regSync == SYNC ==> w.dr6 == w.tracee.dr6)
  }

  /** The registers the tracee will have when it is next let go, if it is resumed now. */
  function Planned(w: World): File
    requires w.done <= |w.log|
  {
    if Ahead(w).gone then Landing(w)
    else
      File(if w.regSync == NEW && w.futureRegs.None? then w.regs else Ahead(w).sight.regs,
           if w.regSync == NEW && w.futureDr6.None? then w.dr6 else Ahead(w).sight.dr6)
  }

  predicate OnPlan(w: World, file: File)
    requires w.done <= |w.log|
  {
    w.status == Reported ==> Planned(w) == file
  }

  predicate Inv(w: World, file: File) {
    CommandsOk(w) && GoOk(w) && Fresh(w) && OnPlan(w, file)
  }

  // ---------------------------------------------------------------- one lemma a label

  /** With nothing queued that lets the tracee go, nothing queued writes it back either. */
  lemma QueueIsQuiet(w: World)
    requires CommandsOk(w) && NoGo(Queue(w))
    ensures Quiet(Queue(w))
    ensures Landing(w) == File(w.tracee.regs, w.tracee.dr6) && !Ahead(w).gone
  {
    QuietOrDangling(Queue(w));
    GlideQuiet(Start(w), Queue(w));
  }

  lemma InitInv(w: World)
    requires Init(w)
    ensures Inv(w, File(w.tracee.regs, w.tracee.dr6))
  {
    hide Tick, Glide, Dangling;
    var q := Queue(w);
    QuietIsNotDangling(q);
    GlideQuiet(Start(w), q);
  }

  lemma WorkerKeepsInv(w: World, file: File, outcome: Sight)
    requires Inv(w, file) && Enabled(w, Worker(outcome))
    ensures Inv(Execute(w, outcome), file)
  {
    hide Execute;
    var w' := Execute(w, outcome);
    WorkerKeepsCommands(w, w', Queue(w));
    WorkerKeepsGo(w, outcome);
    WorkerKeepsFresh(w, outcome);
    WorkerKeepsPlan(w, file, outcome);
  }

  lemma WorkerKeepsFresh(w: World, outcome: Sight)
    requires CommandsOk(w) && GoOk(w) && Fresh(w) && w.done < |w.log|
    ensures Fresh(Execute(w, outcome))
  {
    hide Dangling, NoLateRead, NoReadAheadOfWrite, Tick, Glide, Execute;
    if Settled(w) && NoGo(Queue(w)) {
      QueueIsQuiet(w);
      assert Queue(w)[0] == w.log[w.done];
      QuietExecute(w, outcome);
    }
  }

  /** A command that writes nothing back at most fills the cache from the tracee. */
  lemma QuietExecute(w: World, outcome: Sight)
    requires w.done < |w.log| && !w.status.Running? && !Go(w.log[w.done]) && !WriteBack(w.log[w.done])
    ensures var w', c := Execute(w, outcome), w.log[w.done];
            && w'.tracee.regs == w.tracee.regs && w'.tracee.dr6 == w.tracee.dr6 && w'.status == w.status
            && w'.regs == (if c.GetRegs? then w.tracee.regs else w.regs)
            && w'.peeked == if c.PeekDr6? then w.peeked[w.done := w.tracee.dr6] else w.peeked
  {
  }

  lemma WorkerKeepsPlan(w: World, file: File, outcome: Sight)
    requires CommandsOk(w) && GoOk(w) && OnPlan(w, file) && w.done < |w.log|
    ensures OnPlan(Execute(w, outcome), file)
  {
    hide Tick, Glide, Dangling, Execute, NoReadAheadOfWrite, GoOk;
    var w' := Execute(w, outcome);
    if w'.status == Reported {
      assert Queue(w)[0] == w.log[w.done];
      StaysReported(w, outcome);
      ExecuteIsTick(w, outcome);
      GoneExactlyIf(Start(w), Queue(w));
      if NoGo(Queue(w)) {
        QueueIsQuiet(w);
        QuietExecute(w, outcome);
      }
    }
  }

  lemma StaysReported(w: World, outcome: Sight)
    requires w.done < |w.log| && Execute(w, outcome).status == Reported
    ensures w.status == Reported && !Go(w.log[w.done])
  {
  }

  /** Executing the head of the queue is one tick of the glide. */
  lemma ExecuteIsTick(w: World, outcome: Sight)
    requires w.done < |w.log| && !w.status.Running? && !Go(w.log[w.done])
    ensures Ahead(Execute(w, outcome)) == Ahead(w)
  {
    hide Execute, Tick, Glide;
    var q := Queue(w);
    assert q[0] == w.log[w.done] && q[1..] == Queue(Execute(w, outcome));
    GlideHead(Start(w), q);
    StartTicks(w, outcome);
  }

  lemma StartTicks(w: World, outcome: Sight)
    requires w.done < |w.log| && !w.status.Running? && !Go(w.log[w.done])
    ensures Tick(Start(w), w.log[w.done]) == Start(Execute(w, outcome))
  {
  }

  lemma WorkerKeepsCommands(w: World, w': World, q: seq<Command>)
    requires CommandsOk(w) && q == Queue(w) && q != []
    requires w'.log == w.log && w'.done == w.done + 1
    requires w'.futureRegs == w.futureRegs && w'.futureDr6 == w.futureDr6
    ensures CommandsOk(w')
  {
    assert q[1..] == Queue(w');
    if Dangling(q[1..]) {
      DanglingTail(q);
    }
  }

  lemma WorkerKeepsGo(w: World, outcome: Sight)
    requires w.done < |w.log| && GoOk(w)
    ensures GoOk(Execute(w, outcome))
  {
    hide Execute;
    var q := Queue(w);
    var w' := Execute(w, outcome);
    assert q[0] == w.log[w.done] && Queue(w') == q[1..];
    if w'.status == Reported {
      StaysReported(w, outcome);
    }
  }

  /** Enqueueing keeps the order of the queue when reads come with a new future, and write-backs
      with the command they are for. */
  lemma {:induction false} AppendKeepsCommands(w: World, w': World, r: seq<Command>)
    requires CommandsOk(w) && w'.log == w.log + r && w'.done == w.done
    requires w'.futureRegs == w.futureRegs && w'.futureDr6 == w.futureDr6
    requires forall i | 0 <= i < |r| :: !r[i].GetRegs?
    requires SetRegs in r ==> w.futureRegs.None?
    requires !Dangling(Queue(w) + r)
    ensures CommandsOk(w')
  {
    hide Dangling, NoReadAheadOfWrite;
    assert Queue(w') == Queue(w) + r;
    AppendKeepsOrder(Queue(w), r);
  }

  lemma AppendKeepsOrder(q: seq<Command>, r: seq<Command>)
    requires NoReadAheadOfWrite(q) && GetRegs !in r && (SetRegs in r ==> GetRegs !in q)
    ensures NoReadAheadOfWrite(q + r)
  {
  }

  /** Requests that write nothing back and let nothing go leave what is ahead as it was. */
  lemma AppendQuiet(w: World, w': World, r: seq<Command>)
    requires w.done <= |w.log| && w'.log == w.log + r && w'.done == w.done && Quiet(r)
    requires w'.tracee == w.tracee && w'.regs == w.regs
    ensures Queue(w') == Queue(w) + r && (NoGo(Queue(w')) <==> NoGo(Queue(w)))
    ensures Landing(w') == Landing(w) && Ahead(w').gone == Ahead(w).gone
  {
    hide Glide;
    assert Queue(w') == Queue(w) + r;
    assert NoGo(Queue(w')) ==> forall i | 0 <= i < |Queue(w)| :: Queue(w')[i] == Queue(w)[i];
    GlideConcat(Start(w), Queue(w), r);
    if Ahead(w).gone {
      GlideGone(Ahead(w), r);
    } else {
      GlideQuiet(Ahead(w), r);
    }
  }

  /** Requests of other producers change nothing that the invariant speaks of. */
  lemma ForeignKeepsInv(w: World, file: File, a: seq<Command>)
    requires Inv(w, file) && AllForeign(a)
    ensures Inv(w.(log := w.log + a), file)
  {
    hide Dangling, NoLateRead, NoReadAheadOfWrite, GoOk, Ahead;
    var w' := w.(log := w.log + a);
    DanglingQuiet(Queue(w), a);
    AppendKeepsCommands(w, w', a);
    ForeignKeepsGo(w, w', a);
    AppendQuiet(w, w', a);
  }

  lemma ForeignKeepsGo(w: World, w': World, a: seq<Command>)
    requires w.done <= |w.log| && GoOk(w) && AllForeign(a) && w' == w.(log := w.log + a)
    ensures GoOk(w')
  {
    AppendQuiet(w, w', a);
  }

  lemma ReportKeepsInv(w: World, file: File)
    requires Inv(w, file) && Enabled(w, ReportStop)
    ensures Inv(Apply(w, ReportStop), Landing(w))
  {
    hide Glide, Dangling, NoLateRead, NoReadAheadOfWrite;
  }

  lemma ReadKeepsInv(w: World, file: File, a: seq<Command>)
    requires Inv(w, file) && Enabled(w, Read(a))
    ensures Inv(Apply(w, Read(a)), file)
  {
    hide CommandsOk, GoOk, Fresh, OnPlan;
    if w.state == STOPPED && w.regSync == OLD {
      ReadKeepsCommands(w, a);
      ReadKeepsPlan(w, file, a);
    } else {
      ForeignKeepsInv(w, file, a);
    }
  }

  lemma ReadKeepsPlan(w: World, file: File, a: seq<Command>)
    requires w.done <= |w.log| && Fresh(w) && OnPlan(w, file) && AllForeign(a) && w.state == STOPPED && w.regSync == OLD
    ensures Fresh(ReadRegisters(w, a)) && OnPlan(ReadRegisters(w, a), file)
  {
    hide Ahead;
    AppendQuiet(w, ReadRegisters(w, a), [PeekDr6] + a + [GetRegs]);
  }

  lemma ReadKeepsCommands(w: World, a: seq<Command>)
    requires CommandsOk(w) && GoOk(w) && w.state == STOPPED && w.regSync == OLD && w.stepping.None? && AllForeign(a)
    ensures CommandsOk(ReadRegisters(w, a)) && GoOk(ReadRegisters(w, a))
  {
    hide Dangling;
    var w', r := ReadRegisters(w, a), [PeekDr6] + a + [GetRegs];
    AppendQuiet(w, w', r);
    DanglingQuiet(Queue(w), r);
  }

  lemma {:induction false} QuietIsNotDangling(q: seq<Command>)
    requires Quiet(q)
    ensures !Dangling(q)
  {
    if q != [] {
      QuietIsNotDangling(q[..|q| - 1]);
    }
  }

  lemma AwaitKeepsInv(w: World, file: File, l: Label)
    requires Inv(w, file) && l in {AwaitRegs, AwaitDr6} && Enabled(w, l)
    ensures Inv(Apply(w, l), file)
  {
    hide Dangling, Tick, Glide;
    var w' := Apply(w, l);
    assert Queue(w') == Queue(w);
    AwaitKeepsGo(w, l);
    if w.status == Reported && NoGo(Queue(w)) {
      QueueIsQuiet(w);
      QueueIsQuiet(w');
    } else {
      GoneExactlyIf(Start(w), Queue(w));
    }
  }

  lemma AwaitKeepsGo(w: World, l: Label)
    requires CommandsOk(w) && GoOk(w) && l in {AwaitRegs, AwaitDr6} && Enabled(w, l)
    ensures CommandsOk(Apply(w, l)) && GoOk(Apply(w, l))
  {
    hide Dangling;
    assert Queue(Apply(w, l)) == Queue(w);
  }

  lemma JumpKeepsInv(w: World, file: File, l: Label)
    requires Inv(w, file) && l.Jump? && Enabled(w, l)
    ensures Inv(Apply(w, l), Edit(file, Landing(w), true, l))
  {
    hide Dangling, NoLateRead, NoReadAheadOfWrite, Tick, Glide;
    var w' := Apply(w, l);
    assert Queue(w') == Queue(w);
    QueueIsQuiet(w);
    QueueIsQuiet(w');
  }

  lemma SetDr6KeepsInv(w: World, file: File, l: Label)
    requires Inv(w, file) && l.SetDr6? && Enabled(w, l)
    ensures Inv(Apply(w, l), Edit(file, Landing(w), w.state == STOPPED, l))
  {
    hide Dangling, NoLateRead, NoReadAheadOfWrite, Tick, Glide;
    var w' := Apply(w, l);
    assert Queue(w') == Queue(w);
    if w.state == STOPPED {
      QueueIsQuiet(w);
      QueueIsQuiet(w');
    } else {
      GoneExactlyIf(Start(w), Queue(w));
    }
  }

  /** What a resumption enqueues. */
  function Release(w: World, a: seq<Command>, b: seq<Command>, c: Command): seq<Command> {
    DirtyRegs(w) + a + DirtyDr6(w) + b + [c]
  }

  lemma GlideRelease(g: Glider, d: seq<Command>, a: seq<Command>, e: seq<Command>, b: seq<Command>, c: Command, v: bv64)
    requires !g.gone && (d == [] || d == [SetRegs]) && (e == [] || e == [PokeDr6(v)])
    requires AllForeign(a) && AllForeign(b) && Go(c)
    ensures var g' := Glide(g, d + a + e + b + [c]);
            && g'.gone
            && g'.sight.regs == (if d == [] then g.sight.regs else g.buffer)
            && g'.sight.dr6 == (if e == [] then g.sight.dr6 else v)
  {
    hide Glide;
    GlideConcat(g, d + a + e + b, [c]);
    GlideConcat(g, d + a + e, b);
    GlideConcat(g, d + a, e);
    GlideConcat(g, d, a);
    GlideAtMostOne(g, d);
    GlideQuiet(Glide(g, d), a);
    GlideAtMostOne(Glide(g, d + a), e);
    GlideQuiet(Glide(g, d + a + e), b);
    GlideAtMostOne(Glide(g, d + a + e + b), [c]);
  }

  lemma GlideAtMostOne(g: Glider, q: seq<Command>)
    requires |q| <= 1
    ensures Glide(g, q) == if q == [] then g else Tick(g, q[0])
  {
    if q != [] {
      assert q[..0] == [];
    }
  }

  /** Writing back lands the plan: the queue now leads where the cache pointed. */
  lemma LetGoLandsPlan(w: World, a: seq<Command>, b: seq<Command>, c: Command)
    requires CommandsOk(w) && AllForeign(a) && AllForeign(b) && Go(c)
    ensures Ahead(LetGo(w, a, b, c)).gone && Landing(LetGo(w, a, b, c)) == Planned(w)
  {
    hide Tick, Glide, Dangling, NoLateRead, NoReadAheadOfWrite;
    var w' := LetGo(w, a, b, c);
    assert Queue(w') == Queue(w) + Release(w, a, b, c);
    GlideConcat(Start(w), Queue(w), Release(w, a, b, c));
    if Ahead(w).gone {
      GlideGone(Ahead(w), Release(w, a, b, c));
    } else {
      hide Ahead;
      if w.futureRegs.None? {
        BufferAhead(w);
      }
      GlideRelease(Ahead(w), DirtyRegs(w), a, DirtyDr6(w), b, c, w.dr6);
    }
  }

  /** With no read queued, what SETREGS will find in the buffer is what is there. */
  lemma BufferAhead(w: World)
    requires CommandsOk(w) && !Ahead(w).gone && w.futureRegs.None?
    ensures Ahead(w).buffer == w.regs
  {
    hide Glide;
    GoneExactlyIf(Start(w), Queue(w));
    QuietOrDangling(Queue(w));
    GlideQuiet(Start(w), Queue(w));
  }

  lemma ReleaseContents(w: World, a: seq<Command>, b: seq<Command>, c: Command)
    requires AllForeign(a) && AllForeign(b) && Go(c)
    ensures var r := Release(w, a, b, c);
            && |r| > 0 && r[|r| - 1] == c
            && (forall i | 0 <= i < |r| :: !r[i].GetRegs?)
            && (forall i | 0 <= i < |r| - 1 :: !Go(r[i]))
            && (SetRegs in r ==> w.futureRegs.None?)
  {
    var d, e := DirtyRegs(w), DirtyDr6(w);
    forall i | 0 <= i < |Release(w, a, b, c)|
      ensures var x := Release(w, a, b, c)[i]; x in d || x in a || x in e || x in b || i == |Release(w, a, b, c)| - 1
    {
    }
  }

  lemma GoKeepsCommands(w: World, a: seq<Command>, b: seq<Command>, c: Command)
    requires CommandsOk(w) && AllForeign(a) && AllForeign(b) && Go(c)
    ensures CommandsOk(LetGo(w, a, b, c))
  {
    var r := Release(w, a, b, c);
    assert r[|r| - 1] == c;
    assert (Queue(w) + r)[|Queue(w) + r| - 1] == c;
    ReleaseContents(w, a, b, c);
    AppendKeepsCommands(w, LetGo(w, a, b, c), r);
  }

  lemma GoIsTheLast(w: World, a: seq<Command>, b: seq<Command>, c: Command)
    requires w.done <= |w.log| && AllForeign(a) && AllForeign(b) && Go(c)
    ensures var q := Queue(LetGo(w, a, b, c)); LastGo(q, w.done, |LetGo(w, a, b, c).log| - 1) && !NoGo(q)
  {
    var r := Release(w, a, b, c);
    ReleaseContents(w, a, b, c);
    var q := Queue(LetGo(w, a, b, c));
    assert q == Queue(w) + r;
    assert Go(q[|q| - 1]);
  }

  lemma {:induction false} GoKeepsInv(w: World, file: File, l: Label)
    requires Inv(w, file) && (l.Resume? || l.StepBegin?) && Enabled(w, l)
    ensures Inv(Apply(w, l), file)
  {
    hide Inv, Apply, Enabled, LetGo;
    var c := if l.Resume? then Cont(l.signum) else SingleStep;
    var w' := LetGo(w, l.a, l.b, c);
    InvParts(w, file);
    GoIsEnabled(w, l);
    GoKeepsCommands(w, l.a, l.b, c);
    LetGoLandsPlan(w, l.a, l.b, c);
    PlanIsDue(w, file);
    GoIsTheLast(w, l.a, l.b, c);
    GoLeaves(w, w', file, l);
  }

  lemma GoIsEnabled(w: World, l: Label)
    requires w.done <= |w.log| && (l.Resume? || l.StepBegin?) && Enabled(w, l)
    ensures AllForeign(l.a) && AllForeign(l.b) && w.stepping.None?
  {
  }

  lemma PlanIsDue(w: World, file: File)
    requires Inv(w, file)
    ensures w.done <= |w.log| && (w.status == Reported ==> Planned(w) == file)
  {
  }

  lemma InvParts(w: World, file: File)
    requires Inv(w, file)
    ensures CommandsOk(w) && GoOk(w) && w.done <= |w.log|
  {
  }

  lemma GoLeaves(w: World, w': World, file: File, l: Label)
    requires w.done <= |w.log| && (l.Resume? || l.StepBegin?) && Enabled(w, l)
    requires w' == LetGo(w, l.a, l.b, if l.Resume? then Cont(l.signum) else SingleStep) && CommandsOk(w')
    requires LastGo(Queue(w'), w'.done, |w'.log| - 1) && !NoGo(Queue(w')) && Ahead(w').gone
    requires w.status == Reported ==> Landing(w') == file
    ensures Inv(Apply(w, l), file)
  {
    hide Glide, Dangling, NoLateRead, NoReadAheadOfWrite;
    assert Ahead(Apply(w, l)) == Ahead(w');
    assert |w'.log| == |w.log| + |DirtyRegs(w)| + |l.a| + |DirtyDr6(w)| + |l.b| + 1;
  }

  lemma {:induction false} StepKeepsInv(w: World, file: File, l: Label)
    requires Inv(w, file) && Enabled(w, l)
    ensures Inv(Apply(w, l), Edit(file, Landing(w), w.state == STOPPED, l))
  {
    match l
    case Worker(outcome) => WorkerKeepsInv(w, file, outcome);
    case Produce(c) => ForeignKeepsInv(w, file, [c]);
    case Trap(_) =>
    case ReportStop => ReportKeepsInv(w, file);
    case ReportOther(_) =>
    case Read(a) => ReadKeepsInv(w, file, a);
    case AwaitRegs => AwaitKeepsInv(w, file, l);
    case AwaitDr6 => AwaitKeepsInv(w, file, l);
    case Jump(_) => JumpKeepsInv(w, file, l);
    case SetDr6(_) => SetDr6KeepsInv(w, file, l);
    case Resume(_, _, _) => GoKeepsInv(w, file, l);
    case StepBegin(_, _) => GoKeepsInv(w, file, l);
    case StepEnd => StepEndKeepsInv(w, file);
  }

  lemma StepEndKeepsInv(w: World, file: File)
    requires Inv(w, file) && Enabled(w, StepEnd)
    ensures Inv(Apply(w, StepEnd), file)
  {
    hide Glide, Dangling, NoLateRead, NoReadAheadOfWrite;
  }

  lemma {:induction false} RunKeepsInv(w0: World, ls: seq<Label>)
    requires Init(w0) && RunOk(w0, ls)
    ensures Inv(Exec(w0, ls), Due(w0, ls))
  {
    hide Inv, Landing;
    if ls == [] {
      InitInv(w0);
    } else {
      RunKeepsInv(w0, DropLast(ls));
      StepKeepsInv(Exec(w0, DropLast(ls)), Due(w0, DropLast(ls)), ls[|ls| - 1]);
    }
  }
}
