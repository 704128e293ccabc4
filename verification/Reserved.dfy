/**
 Words of the tracee's memory that only one breakpoint writes: what stays true of them while
 the worker, other producers and the stepped instruction do anything else.
 */
module Reserved {
  import opened Options
  import opened Words
  import opened Ptrace
  import opened RegisterCache
  import opened CacheTheorems

  /** A request that does not write to any of the words at `reserved`. */
  predicate Clear(c: Command, reserved: set<Word64>) {
    c.PokeData? ==> forall r | r in reserved :: c.addr + 8 <= r || r + 8 <= c.addr
  }

  predicate AllClear(cs: seq<Command>, reserved: set<Word64>) {
    forall i | 0 <= i < |cs| :: Clear(cs[i], reserved)
  }

  /** `m'` leaves the words at `reserved` as they are in `m`. */
  predicate Spares(m: Memory, m': Memory, reserved: set<Word64>) {
    && |m'| == |m|
    && forall r | r in reserved && Mapped(m, r) :: Load(m', r) == Load(m, r)
  }

  /** Memory once the pokes among `q` have run. */
  function MemAfter(m: Memory, q: seq<Command>): (r: Memory)
    ensures |r| == |m|
  {
    if q == [] then m else PokeIf(MemAfter(m, q[..|q| - 1]), q[|q| - 1])
  }

  function PokeIf(m: Memory, c: Command): (r: Memory)
    ensures |r| == |m|
  {
    if c.PokeData? then Poke(m, c.addr, c.word) else m
  }

  /** Memory as it will be when everything queued has run. */
  function Eventual(w: World): Memory
    requires w.done <= |w.log|
  {
    MemAfter(w.tracee.mem, Queue(w))
  }

  lemma {:induction false} MemAfterConcat(m: Memory, q: seq<Command>, r: seq<Command>)
    ensures MemAfter(m, q + r) == MemAfter(MemAfter(m, q), r)
  {
    if r == [] {
      assert q + r == q;
    } else {
      MemAfterConcat(m, q, r[..|r| - 1]);
      assert (q + r)[..|q + r| - 1] == q + r[..|r| - 1];
    }
  }

  lemma MemAfterHead(m: Memory, q: seq<Command>)
    requires q != []
    ensures MemAfter(m, q) == MemAfter(PokeIf(m, q[0]), q[1..])
  {
    assert q == [q[0]] + q[1..];
    MemAfterConcat(m, [q[0]], q[1..]);
    assert [q[0]][..0] == [];
  }

  /** Pokes treat equal words equally, whatever surrounds them. */
  lemma {:induction false} MemAfterSpares(m: Memory, m': Memory, q: seq<Command>, reserved: set<Word64>)
    requires Spares(m, m', reserved)
    ensures Spares(MemAfter(m, q), MemAfter(m', q), reserved)
  {
    if q != [] {
      MemAfterSpares(m, m', q[..|q| - 1], reserved);
      PokeIfSpares(MemAfter(m, q[..|q| - 1]), MemAfter(m', q[..|q| - 1]), q[|q| - 1], reserved);
    }
  }

  lemma PokeIfSpares(m: Memory, m': Memory, c: Command, reserved: set<Word64>)
    requires Spares(m, m', reserved)
    ensures Spares(PokeIf(m, c), PokeIf(m', c), reserved)
  {
    hide Poke;
    forall r | r in reserved && Mapped(m, r)
      ensures Load(PokeIf(m', c), r) == Load(PokeIf(m, c), r)
    {
      assert Load(m', r) == Load(m, r);
      forall k | r <= k < r + 8
        ensures PokeIf(m', c)[k] == PokeIf(m, c)[k]
      {
        assert m[k] == Load(m, r)[k - r] && m'[k] == Load(m', r)[k - r];
        if c.PokeData? {
          PokedByte(m, c.addr, c.word, k);
          PokedByte(m', c.addr, c.word, k);
        }
      }
    }
  }

  lemma {:induction false} ClearSpares(m: Memory, q: seq<Command>, reserved: set<Word64>)
    requires AllClear(q, reserved)
    ensures Spares(m, MemAfter(m, q), reserved)
  {
    if q != [] {
      ClearSpares(m, q[..|q| - 1], reserved);
      assert Clear(q[|q| - 1], reserved);
    }
  }

  /** Up to the first command that lets the tracee go, gliding runs all the pokes. */
  lemma {:induction false} GlideMemory(g: Glider, q: seq<Command>)
    requires NoGo(q) && !g.gone
    ensures Glide(g, q).sight.mem == MemAfter(g.sight.mem, q) && !Glide(g, q).gone
  {
    if q != [] {
      GlideMemory(g, q[..|q| - 1]);
    }
  }

  /** The commands in `q` that let the tracee go. */
  function Gos(q: seq<Command>): seq<Command> {
    if q == [] then []
    else Gos(q[..|q| - 1]) + if Go(q[|q| - 1]) then [q[|q| - 1]] else []
  }

  lemma {:induction false} GosConcat(q: seq<Command>, r: seq<Command>)
    ensures Gos(q + r) == Gos(q) + Gos(r)
  {
    if r == [] {
      assert q + r == q;
    } else {
      GosConcat(q, r[..|r| - 1]);
      assert (q + r)[..|q + r| - 1] == q + r[..|r| - 1];
    }
  }

  lemma {:induction false} NoGosExactlyIf(q: seq<Command>)
    ensures Gos(q) == [] <==> NoGo(q)
  {
    if q != [] {
      var front := q[..|q| - 1];
      NoGosExactlyIf(front);
      assert NoGo(q) <==> NoGo(front) && !Go(q[|q| - 1]) by {
        assert forall i | 0 <= i < |front| :: front[i] == q[i];
      }
    }
  }

  /** From `w` to `w'` exactly the commands `gos`, of those that let the tracee go, were enqueued. */
  predicate Added(w: World, w': World, gos: seq<Command>) {
    w.log <= w'.log && Gos(w'.log[|w.log|..]) == gos
  }

  lemma AddedTrans(w: World, v: World, w': World, a: seq<Command>, b: seq<Command>)
    requires Added(w, v, a) && Added(v, w', b)
    ensures Added(w, w', a + b)
  {
    assert w'.log[|w.log|..] == v.log[|w.log|..] + w'.log[|v.log|..];
    GosConcat(v.log[|w.log|..], w'.log[|v.log|..]);
  }

  /** The same with nothing added on one side. */
  lemma AddedBeside(w: World, v: World, w': World, gos: seq<Command>)
    ensures Added(w, v, []) && Added(v, w', gos) ==> Added(w, w', gos)
    ensures Added(w, v, gos) && Added(v, w', []) ==> Added(w, w', gos)
  {
    if Added(w, v, []) && Added(v, w', gos) {
      AddedTrans(w, v, w', [], gos);
      assert [] + gos == gos;
    }
    if Added(w, v, gos) && Added(v, w', []) {
      AddedTrans(w, v, w', gos, []);
      assert gos + [] == gos;
    }
  }

  lemma AddedQuiet(w: World, w': World, r: seq<Command>)
    requires w'.log == w.log + r && NoGo(r)
    ensures Added(w, w', [])
  {
    NoGosExactlyIf(r);
  }

  /** From `w` to `w'` the reserved words were left to themselves. */
  predicate Kept(w: World, w': World, reserved: set<Word64>) {
    && w.done <= w'.done && w.done <= |w.log| && w'.done <= |w'.log|
    && w.log <= w'.log && AllClear(w'.log[|w.log|..], reserved)
    && Spares(Eventual(w), Eventual(w'), reserved)
    && Remembered(w.done, w.released, w'.released) && Remembered(w.done, w.stepped, w'.stepped)
  }

  /** What is recorded of commands that have run is not rewritten. */
  predicate Remembered(done: nat, m: map<nat, Sight>, m': map<nat, Sight>) {
    forall t | t in m && t < done :: t in m' && m'[t] == m[t]
  }

  lemma KeptRefl(w: World, reserved: set<Word64>)
    requires w.done <= |w.log|
    ensures Kept(w, w, reserved)
  {
  }

  lemma KeptTrans(w: World, v: World, w': World, reserved: set<Word64>)
    requires Kept(w, v, reserved) && Kept(v, w', reserved)
    ensures Kept(w, w', reserved)
  {
    assert w'.log[|w.log|..] == v.log[|w.log|..] + w'.log[|v.log|..];
  }

  /** A release that is past is not rewritten. */
  lemma KeptReleased(w: World, w': World, t: nat, sight: Sight, reserved: set<Word64>)
    requires Kept(w, w', reserved) && t < w.done && ReleasedAs(w, t, sight)
    ensures t < w'.done && ReleasedAs(w', t, sight)
    ensures t in w.stepped ==> t in w'.stepped && w'.stepped[t] == w.stepped[t]
  {
  }

  lemma PastReleased(w: World, w': World, t: nat, sight: Sight)
    requires t < w.done && ReleasedAs(w, t, sight) && w'.done == w.done && w'.released == w.released
    ensures ReleasedAs(w', t, sight)
  {
  }

  lemma KeptGrows(w: World, w': World, reserved: set<Word64>)
    requires Kept(w, w', reserved)
    ensures w.log <= w'.log && w.done <= w'.done <= |w'.log|
  {
  }

  lemma KeptWord(w: World, w': World, r: Word64, reserved: set<Word64>)
    requires Kept(w, w', reserved) && r in reserved && Mapped(Eventual(w), r)
    ensures Mapped(Eventual(w'), r) && Load(Eventual(w'), r) == Load(Eventual(w), r)
  {
  }

  /** A word that nothing enqueued since `k` writes is, now that `k` is past, what it will be. */
  lemma KeptIsNow(w: World, w': World, r: Word64, reserved: set<Word64>)
    requires Kept(w, w', reserved) && r in reserved && |w.log| <= w'.done && Mapped(Eventual(w), r)
    ensures Mapped(w'.tracee.mem, r) && Load(w'.tracee.mem, r) == Load(Eventual(w), r)
  {
    KeptWord(w, w', r, reserved);
    EventualIsNow(w', |w.log|, r);
  }

  /** Once the word at `r` is not in the queue, it is what it will be. */
  lemma EventualIsNow(w: World, k: nat, r: Word64)
    requires k <= w.done <= |w.log| && AllClear(w.log[k..], {r}) && Mapped(w.tracee.mem, r)
    ensures Load(w.tracee.mem, r) == Load(Eventual(w), r)
  {
    var q := Queue(w);
    assert forall i | 0 <= i < |q| :: q[i] == w.log[k..][w.done - k + i];
    ClearSpares(w.tracee.mem, q, {r});
    assert r in {r};
  }

  /** What goes on while the client does nothing: the worker, other producers, the running tracee. */
  predicate Background(w: World, l: Label, reserved: set<Word64>) {
    match l
    case Worker(outcome) => Spares(w.tracee.mem, outcome.mem, reserved)
    case Produce(c) => Clear(c, reserved)
    case Trap(sight) => Spares(w.tracee.mem, sight.mem, reserved)
    case _ => false
  }

  lemma BackgroundKeeps(w: World, l: Label, reserved: set<Word64>)
    requires w.done <= |w.log| && Enabled(w, l) && Background(w, l, reserved)
    ensures Kept(w, Apply(w, l), reserved)
  {
    match l
    case Worker(outcome) => WorkerKeeps(w, outcome, reserved);
    case Produce(c) => AppendKeeps(w, Apply(w, l), [c], reserved);
    case Trap(sight) => MemAfterSpares(w.tracee.mem, sight.mem, Queue(w), reserved);
  }

  lemma WorkerKeeps(w: World, outcome: Sight, reserved: set<Word64>)
    requires w.done < |w.log| && Spares(w.tracee.mem, outcome.mem, reserved)
    ensures Kept(w, Execute(w, outcome), reserved)
  {
    hide Execute, Spares, MemAfter, PokeIf;
    var w', q := Execute(w, outcome), Queue(w);
    assert q[0] == w.log[w.done] && Queue(w') == q[1..];
    MemAfterHead(w.tracee.mem, q);
    WorkerMemory(w, outcome);
    WorkerRemembers(w, outcome);
    SparesRefl(Eventual(w), reserved);
    if w'.tracee.mem == outcome.mem {
      MemAfterSpares(w.tracee.mem, outcome.mem, q[1..], reserved);
    }
  }

  lemma SparesRefl(m: Memory, reserved: set<Word64>)
    ensures Spares(m, m, reserved)
  {
  }

  lemma WorkerMemory(w: World, outcome: Sight)
    requires w.done < |w.log|
    ensures var c, mem' := w.log[w.done], Execute(w, outcome).tracee.mem;
            mem' == PokeIf(w.tracee.mem, c) || (mem' == outcome.mem && PokeIf(w.tracee.mem, c) == w.tracee.mem)
  {
  }

  lemma WorkerRemembers(w: World, outcome: Sight)
    requires w.done < |w.log|
    ensures var w' := Execute(w, outcome);
            Remembered(w.done, w.released, w'.released) && Remembered(w.done, w.stepped, w'.stepped)
  {
  }

  /** Enqueueing requests that stay off the reserved words. */
  lemma AppendKeeps(w: World, w': World, r: seq<Command>, reserved: set<Word64>)
    requires w.done <= |w.log| && w'.done == w.done && w'.tracee == w.tracee
    requires w'.log == w.log + r && AllClear(r, reserved)
    requires w'.released == w.released && w'.stepped == w.stepped
    ensures Kept(w, w', reserved)
  {
    assert Queue(w') == Queue(w) + r;
    MemAfterConcat(w.tracee.mem, Queue(w), r);
    ClearSpares(Eventual(w), r, reserved);
  }

  /** `run'` goes on from `run` with background activity only. */
  predicate Idled(w0: World, run: seq<Label>, run': seq<Label>, reserved: set<Word64>)
    decreases |run'|
  {
    && RunOk(w0, run')
    && (run' == run
        || (|run'| > |run| && Idled(w0, run, DropLast(run'), reserved)
            && Background(Exec(w0, DropLast(run')), run'[|run'| - 1], reserved)))
  }

  lemma IdledSnoc(w0: World, run: seq<Label>, mid: seq<Label>, l: Label, reserved: set<Word64>)
    requires Idled(w0, run, mid, reserved) && RunOk(w0, mid + [l]) && Background(Exec(w0, mid), l, reserved)
    ensures Idled(w0, run, mid + [l], reserved)
  {
    assert DropLast(mid + [l]) == mid;
  }

  /** The client's fields do not change in the background, except for the buffer. */
  predicate SameClient(w: World, w': World) {
    && w'.state == w.state && w'.regSync == w.regSync && w'.stepping == w.stepping
    && w'.futureRegs == w.futureRegs && w'.dr6 == w.dr6 && w'.futureDr6 == w.futureDr6
  }

  /** A stopped tracee with nothing queued that would let it go stays as it is, and no stop is reported. */
  predicate StaysPut(w: World, w': World)
    requires w.done <= |w.log| && w'.done <= |w'.log|
  {
    && (w'.status == Reported ==> w.status == Reported)
    && (!w.status.Running? && NoGo(Queue(w)) ==>
      && w'.status == w.status && NoGo(Queue(w'))
      && w'.tracee.regs == w.tracee.regs && w'.tracee.dr6 == w.tracee.dr6)
  }

  lemma BackgroundStaysPut(w: World, file: File, l: Label, reserved: set<Word64>)
    requires Inv(w, file) && Enabled(w, l) && Background(w, l, reserved)
    ensures SameClient(w, Apply(w, l)) && StaysPut(w, Apply(w, l))
  {
    hide Tick, Glide, NoLateRead, NoReadAheadOfWrite, Dangling, Fresh, OnPlan, GoOk, Execute;
    if l.Worker? {
      ExecuteKeepsClient(w, l.outcome);
      if w.status.Running? {
        assert Queue(w)[0] == w.log[w.done];
      } else if NoGo(Queue(w)) {
        QueueIsQuiet(w);
        assert Queue(w)[0] == w.log[w.done] && Queue(Apply(w, l)) == Queue(w)[1..];
        QuietExecute(w, l.outcome);
      } else if Apply(w, l).status == Reported {
        StaysReported(w, l.outcome);
      }
    } else if l.Produce? {
      assert Queue(Apply(w, l)) == Queue(w) + [l.command];
    }
  }

  lemma ExecuteKeepsClient(w: World, outcome: Sight)
    requires w.done < |w.log|
    ensures SameClient(w, Execute(w, outcome))
  {
  }

  lemma BackgroundAddsNothing(w: World, l: Label, reserved: set<Word64>)
    requires w.done <= |w.log| && Enabled(w, l) && Background(w, l, reserved)
    ensures Added(w, Apply(w, l), [])
  {
    hide Execute;
    if l.Produce? {
      AddedQuiet(w, Apply(w, l), [l.command]);
    } else {
      AddedQuiet(w, Apply(w, l), []);
    }
  }

  lemma BackgroundEditsNothing(w: World, l: Label, reserved: set<Word64>, file: File, loaded: File, stopped: bool)
    requires Background(w, l, reserved)
    ensures Edit(file, loaded, stopped, l) == file
  {
  }

  /** Everything that idling leaves alone. */
  lemma {:induction false} IdledKeeps(w0: World, run: seq<Label>, run': seq<Label>, reserved: set<Word64>)
    requires Init(w0) && Idled(w0, run, run', reserved)
    ensures RunOk(w0, run) && run <= run' && Direct(w0, run') == Direct(w0, run)
    ensures Kept(Exec(w0, run), Exec(w0, run'), reserved)
    ensures SameClient(Exec(w0, run), Exec(w0, run')) && StaysPut(Exec(w0, run), Exec(w0, run'))
    ensures Added(Exec(w0, run), Exec(w0, run'), [])
  {
    hide Kept, Apply, Background, Inv, Added;
    if run' == run {
      KeptRefl(Exec(w0, run), reserved);
      AddedQuiet(Exec(w0, run), Exec(w0, run), []);
    } else {
      var mid, l := DropLast(run'), run'[|run'| - 1];
      IdledKeeps(w0, run, mid, reserved);
      RunKeepsInv(w0, mid);
      BackgroundKeeps(Exec(w0, mid), l, reserved);
      BackgroundStaysPut(Exec(w0, mid), Due(w0, mid), l, reserved);
      var w := Exec(w0, mid);
      BackgroundAddsNothing(w, l, reserved);
      AddedBeside(Exec(w0, run), w, Exec(w0, run'), []);
      BackgroundEditsNothing(w, l, reserved, Direct(w0, mid), File(w.tracee.regs, w.tracee.dr6), w.state == STOPPED);
      KeptTrans(Exec(w0, run), Exec(w0, mid), Exec(w0, run'), reserved);
    }
  }

  /** `w'` is `w` after nothing but reads of the cache and background activity. */
  predicate Rested(w: World, w': World, reserved: set<Word64>) {
    && Kept(w, w', reserved) && StaysPut(w, w') && Added(w, w', [])
    && w'.state == w.state && w'.stepping == w.stepping
  }

  lemma RestedTrans(w: World, v: World, w': World, reserved: set<Word64>)
    requires Rested(w, v, reserved) && Rested(v, w', reserved)
    ensures Rested(w, w', reserved)
  {
    hide Kept, Added;
    KeptTrans(w, v, w', reserved);
    AddedBeside(w, v, w', []);
  }

  lemma RestedGrows(w: World, w': World, reserved: set<Word64>)
    requires Rested(w, w', reserved)
    ensures w.log <= w'.log && w.done <= w'.done <= |w'.log|
  {
  }

  lemma {:induction false} IdleRests(w0: World, run: seq<Label>, run': seq<Label>, reserved: set<Word64>)
    requires Init(w0) && Idled(w0, run, run', reserved)
    ensures RunOk(w0, run) && run <= run' && Rested(Exec(w0, run), Exec(w0, run'), reserved)
    ensures Direct(w0, run') == Direct(w0, run)
  {
    IdledKeeps(w0, run, run', reserved);
  }

  /** Resting does not unsettle a thread. */
  lemma RestedSettled(w: World, w': World, reserved: set<Word64>)
    requires Rested(w, w', reserved)
    ensures AtRest(w) ==> AtRest(w')
  {
  }

  lemma AppendRests(w: World, w': World, r: seq<Command>, reserved: set<Word64>)
    requires w.done <= |w.log| && w'.log == w.log + r && NoGo(r) && AllClear(r, reserved)
    requires w'.done == w.done && w'.tracee == w.tracee && w'.status == w.status
    requires w'.state == w.state && w'.stepping == w.stepping
    requires w'.released == w.released && w'.stepped == w.stepped
    ensures Rested(w, w', reserved)
  {
    hide Kept, Added;
    AppendKeeps(w, w', r, reserved);
    AddedQuiet(w, w', r);
    assert Queue(w') == Queue(w) + r;
  }

  lemma ReadRests(w: World, a: seq<Command>, reserved: set<Word64>)
    requires w.done <= |w.log| && AllForeign(a) && AllClear(a, reserved)
    ensures Rested(w, ReadRegisters(w, a), reserved)
  {
    hide Rested;
    var r := if w.state == STOPPED && w.regSync == OLD then [PeekDr6] + a + [GetRegs] else a;
    assert ReadRegisters(w, a).log == w.log + r;
    AppendRests(w, ReadRegisters(w, a), r, reserved);
  }

  /** The step of ticket `t` is still to come, or has been taken and nothing has happened since. */
  predicate StepTakenOnce(w: World, t: nat) {
    && w.stepping == Some(t) && t < |w.log| && w.log[t].SingleStep?
    && (if t < w.done then
          w.status == Trapped && t in w.stepped
          && w.tracee.regs == w.stepped[t].regs && w.tracee.dr6 == w.stepped[t].dr6
        else NextGo(w, t))
  }

  lemma BackgroundKeepsStep(w: World, file: File, l: Label, t: nat, reserved: set<Word64>)
    requires Inv(w, file) && Enabled(w, l) && Background(w, l, reserved) && StepTakenOnce(w, t)
    ensures StepTakenOnce(Apply(w, l), t)
  {
    hide Tick, Glide, NoLateRead, NoReadAheadOfWrite, Fresh, OnPlan, Dangling, Execute, GoBefore;
    LogGrows(w, l);
    if t < w.done {
      QueueIsQuiet(w);
      if l.Worker? {
        assert w.log[w.done] == Queue(w)[0];
        QuietExecute(w, l.outcome);
        ExecuteRemembers(w, l.outcome, t);
      }
    } else if l.Worker? {
      StepOrTick(w, l.outcome, t);
    }
  }

  lemma StepOrTick(w: World, outcome: Sight, t: nat)
    requires w.done <= t && StepTakenOnce(w, t)
    ensures StepTakenOnce(Execute(w, outcome), t)
  {
  }

  lemma {:induction false} IdledKeepsStep(w0: World, run: seq<Label>, run': seq<Label>, t: nat, reserved: set<Word64>)
    requires Init(w0) && RunOk(w0, run) && Idled(w0, run, run', reserved) && StepTakenOnce(Exec(w0, run), t)
    ensures StepTakenOnce(Exec(w0, run'), t)
  {
    hide Apply, Background, Inv, StepTakenOnce;
    if run' != run {
      var mid, l := DropLast(run'), run'[|run'| - 1];
      IdledKeepsStep(w0, run, mid, t, reserved);
      RunKeepsInv(w0, mid);
      BackgroundKeepsStep(Exec(w0, mid), Due(w0, mid), l, t, reserved);
    }
  }

  /** The part of Idled that matters for what a release looks like. */
  lemma {:induction false} IdledKeepsReleasedAs(w0: World, run: seq<Label>, run': seq<Label>, t: nat, sight: Sight, reserved: set<Word64>)
    requires Init(w0) && RunOk(w0, run) && Idled(w0, run, run', reserved) && ReleasedAs(Exec(w0, run), t, sight)
    ensures ReleasedAs(Exec(w0, run'), t, sight)
  {
    hide Kept, ReleasedAs, Apply, SameClient, StaysPut;
    IdledKeeps(w0, run, run', reserved);
    assert run' == run + run'[|run|..];
    RunKeepsReleasedAs(w0, run, run'[|run|..], t, sight);
  }

  lemma LetGoKeeps(w: World, a: seq<Command>, b: seq<Command>, c: Command, reserved: set<Word64>)
    requires w.done <= |w.log| && AllClear(a, reserved) && AllClear(b, reserved) && Go(c)
    ensures Kept(w, LetGo(w, a, b, c), reserved)
  {
    hide Kept;
    ReleaseIsClear(w, a, b, c, reserved);
    assert LetGo(w, a, b, c).log == w.log + Release(w, a, b, c);
    AppendKeeps(w, LetGo(w, a, b, c), Release(w, a, b, c), reserved);
  }

  /** What resuming or stepping a stopped thread with a quiet queue will release. */
  lemma LetGoReleases(w: World, file: File, a: seq<Command>, b: seq<Command>, c: Command, reserved: set<Word64>)
    requires Inv(w, file) && w.stepping.None? && AllForeign(a) && AllForeign(b) && Go(c)
    requires AllClear(a, reserved) && AllClear(b, reserved)
    requires NoGo(Queue(w)) && !w.status.Running?
    ensures var w' := LetGo(w, a, b, c);
            && ReleasedAs(w', |w'.log| - 1, Ahead(w').sight)
            && Spares(Eventual(w), Ahead(w').sight.mem, reserved)
            && (w.status == Reported ==> File(Ahead(w').sight.regs, Ahead(w').sight.dr6) == file)
            && (w.regSync != NEW ==> Ahead(w').sight.regs == w.tracee.regs)
  {
    hide Inv, Ahead, Eventual, Spares, LetGo;
    InvParts(w, file);
    LetGoIsNext(w, a, b, c);
    LetGoSpares(w, a, b, c, reserved);
    LetGoLandsPlan(w, a, b, c);
    PlanIsDue(w, file);
    if w.regSync != NEW {
      LetGoKeepsRegs(w, a, b, c);
    }
  }

  lemma LetGoIsNext(w: World, a: seq<Command>, b: seq<Command>, c: Command)
    requires w.done <= |w.log| && AllForeign(a) && AllForeign(b) && Go(c) && NoGo(Queue(w)) && !w.status.Running?
    ensures |LetGo(w, a, b, c).log| > 0 && w.done < |LetGo(w, a, b, c).log|
    ensures NextGo(LetGo(w, a, b, c), |LetGo(w, a, b, c).log| - 1)
  {
    var w', r := LetGo(w, a, b, c), Release(w, a, b, c);
    assert w'.log == w.log + r;
    ReleaseContents(w, a, b, c);
    ReleaseIsNextGo(w, w', r);
  }

  lemma LetGoSpares(w: World, a: seq<Command>, b: seq<Command>, c: Command, reserved: set<Word64>)
    requires w.done <= |w.log| && AllForeign(a) && AllForeign(b) && Go(c) && NoGo(Queue(w))
    requires AllClear(a, reserved) && AllClear(b, reserved)
    ensures Spares(Eventual(w), Ahead(LetGo(w, a, b, c)).sight.mem, reserved)
  {
    hide Glide, MemAfter, Spares, Release;
    var w', r := LetGo(w, a, b, c), Release(w, a, b, c);
    ReleaseExtends(w, a, b, c);
    ReleaseContents(w, a, b, c);
    var front := r[..|r| - 1];
    assert Queue(w') == Queue(w) + front + [c];
    GlideToGo(Start(w), Queue(w) + front, c);
    ReleaseIsClear(w, a, b, c, reserved);
    MemAfterConcat(w.tracee.mem, Queue(w), front);
    ClearSpares(Eventual(w), front, reserved);
  }

  lemma ReleaseExtends(w: World, a: seq<Command>, b: seq<Command>, c: Command)
    ensures LetGo(w, a, b, c).log == w.log + Release(w, a, b, c) && Start(LetGo(w, a, b, c)) == Start(w)
    ensures LetGo(w, a, b, c).done == w.done
  {
  }

  lemma LetGoKeepsRegs(w: World, a: seq<Command>, b: seq<Command>, c: Command)
    requires CommandsOk(w) && AllForeign(a) && AllForeign(b) && Go(c) && NoGo(Queue(w)) && w.regSync != NEW
    ensures Ahead(LetGo(w, a, b, c)).sight.regs == w.tracee.regs
  {
    hide Glide, Dangling, NoLateRead, NoReadAheadOfWrite;
    var q := Queue(w) + a + b;
    ReleaseExtends(w, a, b, c);
    assert Queue(LetGo(w, a, b, c)) == q + [c];
    QueueIsQuiet(w);
    GlideQuiet(Start(w), q);
    GlideToGo(Start(w), q, c);
  }

  /** Apart from the buffer, these relations speak of the tracer only. */
  lemma TracerDecides(w: World, v: World, v': World, t: nat, sight: Sight, reserved: set<Word64>)
    requires v'.log == v.log && v'.done == v.done && v'.tracee == v.tracee && v'.status == v.status
    requires v'.released == v.released && v'.stepped == v.stepped && v'.regs == v.regs
    ensures Kept(w, v, reserved) ==> Kept(w, v', reserved)
    ensures ReleasedAs(v, t, sight) ==> ReleasedAs(v', t, sight)
  {
    hide Glide, MemAfter;
  }

  lemma KeptThroughReport(w: World, v: World, v': World, reserved: set<Word64>)
    requires Kept(w, v, reserved)
    requires v'.log == v.log && v'.done == v.done && v'.tracee == v.tracee
    requires v'.released == v.released && v'.stepped == v.stepped
    ensures Kept(w, v', reserved)
  {
    hide MemAfter;
  }

  lemma ReleaseIsClear(w: World, a: seq<Command>, b: seq<Command>, c: Command, reserved: set<Word64>)
    requires AllClear(a, reserved) && AllClear(b, reserved) && Go(c)
    ensures AllClear(Release(w, a, b, c), reserved)
  {
    assert AllClear(DirtyRegs(w), reserved) && AllClear(DirtyDr6(w), reserved) && AllClear([c], reserved);
  }

  lemma ReleaseIsNextGo(w: World, w': World, r: seq<Command>)
    requires w.done <= |w.log| && NoGo(Queue(w)) && !w.status.Running?
    requires w'.log == w.log + r && w'.done == w.done && w'.status == w.status
    requires |r| > 0 && Go(r[|r| - 1]) && NoGo(r[..|r| - 1])
    ensures NextGo(w', |w'.log| - 1)
  {
    forall i | w.done <= i < |w'.log| - 1
      ensures !Go(w'.log[i])
    {
      if i < |w.log| {
        assert w'.log[i] == Queue(w)[i - w.done];
      } else {
        assert w'.log[i] == r[..|r| - 1][i - |w.log|];
      }
    }
  }

  /** What is enqueued lets the tracee go next only if nothing else will. */
  lemma NextGoIsFirst(w: World, w': World, t: nat)
    requires w.done <= |w.log| <= t && w.log <= w'.log && w'.done == w.done && w'.status == w.status && NextGo(w', t)
    ensures NoGo(Queue(w)) && !w.status.Running?
  {
    assert forall i | 0 <= i < |Queue(w)| :: Queue(w)[i] == w'.log[w.done + i];
  }

  lemma GlideToGo(g: Glider, q: seq<Command>, c: Command)
    requires NoGo(q) && !g.gone && Go(c)
    ensures Glide(g, q + [c]).sight == Glide(g, q).sight
    ensures Glide(g, q).sight.mem == MemAfter(g.sight.mem, q)
  {
    GlideSnoc(g, q, c);
    GlideMemory(g, q);
  }

  lemma GlideSnoc(g: Glider, q: seq<Command>, c: Command)
    ensures Glide(g, q + [c]) == Tick(Glide(g, q), c)
  {
    GlideConcat(g, q, [c]);
    GlideAtMostOne(Glide(g, q), [c]);
  }

  lemma RestedInTime(w: World, w': World, reserved: set<Word64>)
    requires Rested(w, w', reserved)
    ensures Kept(w, w', reserved) && (w'.status == Reported ==> w.status == Reported)
    ensures w.status == Trapped && NoGo(Queue(w)) ==>
              && w'.status == Trapped && NoGo(Queue(w'))
              && w'.tracee.regs == w.tracee.regs && w'.tracee.dr6 == w.tracee.dr6
  {
  }

  lemma StepIsToCome(w: World, t: nat, sight: Sight)
    requires w.done <= t < |w.log| && w.stepping == Some(t) && w.log[t].SingleStep?
    ensures ReleasedAs(w, t, sight) ==> StepTakenOnce(w, t)
  {
  }

  lemma RestedAddsNothing(w: World, w': World, reserved: set<Word64>)
    requires Rested(w, w', reserved)
    ensures Added(w, w', [])
  {
  }

  lemma SameLogAdds(w: World, v: World, v': World, gos: seq<Command>)
    requires Added(w, v, gos) && v'.log == v.log
    ensures Added(w, v', gos)
  {
  }

  /** A resumption adds the command that lets the tracee go, and no other. */
  lemma LetGoAdds(w: World, a: seq<Command>, b: seq<Command>, c: Command)
    requires AllForeign(a) && AllForeign(b) && Go(c)
    ensures Added(w, LetGo(w, a, b, c), [c])
  {
    var r := Release(w, a, b, c);
    ReleaseContents(w, a, b, c);
    assert LetGo(w, a, b, c).log == w.log + r;
    assert r == r[..|r| - 1] + [c];
    NoGosExactlyIf(r[..|r| - 1]);
  }

  /** What Interleave, GetRip and Jump promise, as Kept. */
  lemma RestedIsKept(w: World, w': World, reserved: set<Word64>)
    requires Rested(w, w', reserved)
    ensures Kept(w, w', reserved) && w.log <= w'.log && |w'.tracee.mem| == |w.tracee.mem|
  {
  }

  /** What has been released stays so when more is done that keeps the reserved words. */
  lemma StepIsPast(w: World, v: World, w': World, t: nat, sight: Sight, reserved: set<Word64>)
    requires Kept(w, v, reserved) && Kept(v, w', reserved) && t < v.done
    ensures Kept(w, w', reserved) && t < w'.done
    ensures ReleasedAs(v, t, sight) ==> ReleasedAs(w', t, sight)
    ensures t in v.stepped ==> t in w'.stepped
  {
    hide Spares, Eventual, AllClear;
    KeptTrans(w, v, w', reserved);
  }
}
