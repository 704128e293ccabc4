/**
 SpiedProgram::listenEvent: which threads it comes to know and which callbacks it queues, over
 every stream of waitpid events interleaved with what client threads do meanwhile.
 */
module SpiedPrograms {
  import opened Options
  import opened Words
  import opened Events
  import CommandQueue

  datatype Callback =
    | Creation(tid: int)
    | WatchHit(tid: int, idx: nat)
    | BreakHit(breakPoint: nat, tid: int)   // by its place in _breakPoints

  predicate Hit(c: Callback) {
    c.WatchHit? || c.BreakHit?
  }

  /** A SpiedThread, as far as the dispatcher looks at it. */
  datatype Thread = Thread(tid: int, expected: bool)

  /** `callbacks` is everything given to the callback handler so far, in order. */
  datatype Program = Program(
    pid: int, threads: seq<Thread>, breakPoints: seq<Word64>, onCreation: bool, callbacks: seq<Callback>)

  /** An event, with what getDr6 and getRip return while it is handled, or a client's doing:
      singleStep, singleStep giving up its wait, setThreadCreationCallback, createBreakPoint. */
  datatype Item =
    | Event(tid: int, event: ThreadEvent, dr6: bv64, rip: Word64)
    | ExpectStep(tid: int)
    | StepTimesOut(tid: int)
    | SetOnCreation(on: bool)
    | CreateBreakPoint(addr: Word64)

  /** A program whose event listener has not started. */
  predicate Init(p: Program) {
    p.threads == [] && p.breakPoints == [] && p.callbacks == [] && !p.onCreation
  }

  /** The first thread, from `i` on, with this tid, or the number of threads. */
  function FindThread(threads: seq<Thread>, tid: int, i: nat): (r: nat)
    requires i <= |threads|
    ensures i <= r <= |threads| && (r < |threads| ==> threads[r].tid == tid)
    ensures forall j | i <= j < r :: threads[j].tid != tid
    decreases |threads| - i
  {
    if i == |threads| || threads[i].tid == tid then i else FindThread(threads, tid, i + 1)
  }

  function FindBreakPoint(breakPoints: seq<Word64>, addr: Word64, i: nat): (r: nat)
    requires i <= |breakPoints|
    ensures i <= r <= |breakPoints| && (r < |breakPoints| ==> breakPoints[r] == addr)
    ensures forall j | i <= j < r :: breakPoints[j] != addr
    decreases |breakPoints| - i
  {
    if i == |breakPoints| || breakPoints[i] == addr then i else FindBreakPoint(breakPoints, addr, i + 1)
  }

  /** (void*)(pc - 1) */
  function Before(pc: Word64): Word64 {
    (pc - 1) % 0x1_0000_0000_0000_0000
  }

  /** The callbacks queued for an event of a known thread. */
  function Hits(p: Program, tid: int, outcome: Outcome, rip: Word64): seq<Callback> {
    (if outcome.hit.Some? then [WatchHit(tid, outcome.hit.value)] else [])
    + if outcome.handled then []
      else
        var b := FindBreakPoint(p.breakPoints, Before(rip), 0);
        if b < |p.breakPoints| then [BreakHit(b, tid)] else []
  }

  /** _isSigTrapExpected of one thread is assigned. */
  function Expecting(p: Program, tid: int, expected: bool): Program {
    var i := FindThread(p.threads, tid, 0);
    if i == |p.threads| then p else p.(threads := p.threads[i := Thread(tid, expected)])
  }

  /** One iteration of listenEvent, or one client call. */
  function Step(p: Program, item: Item): Program {
    match item
    case Event(tid, event, dr6, rip) =>
      var i := FindThread(p.threads, tid, 0);
      if tid == p.pid then p
      else if i == |p.threads| then
        p.(threads := p.threads + [Thread(tid, false)],
        callbacks := p.callbacks + if p.onCreation then [Creation(tid)] else [])
      else
        var outcome := HandleEvent(event, p.threads[i].expected, dr6);
        p.(threads := p.threads[i := Thread(tid, outcome.expected)],
        callbacks := p.callbacks + Hits(p, tid, outcome, rip))
    case ExpectStep(tid) => Expecting(p, tid, true)
    case StepTimesOut(tid) => Expecting(p, tid, false)
    case SetOnCreation(on) => p.(onCreation := on)
    case CreateBreakPoint(addr) => p.(breakPoints := p.breakPoints + [addr])
  }

  function Run(p: Program, items: seq<Item>): Program
    decreases |items|
  {
    if items == [] then p else Step(Run(p, items[..|items| - 1]), items[|items| - 1])
  }

  // ---------------------------------------------------------------- the history, on its own

  /** The thread has had an event of its own. */
  predicate Seen(pid: int, items: seq<Item>, tid: int) {
    tid != pid && exists k :: 0 <= k < |items| && items[k].Event? && items[k].tid == tid
  }

  /** A step of the thread is under way: the last of its steps, of its steps that were given up, and of
      its SIGTRAPs is a step. */
  predicate StepPending(pid: int, items: seq<Item>, tid: int)
    decreases |items|
  {
    items != [] &&
    var before, last := items[..|items| - 1], items[|items| - 1];
    if !Seen(pid, before, tid) then false
    else if last.ExpectStep? && last.tid == tid then true
    else if last.StepTimesOut? && last.tid == tid then false
    else if last.Event? && last.tid == tid && last.event.Stopped? && last.event.signal == SIGTRAP then false
    else StepPending(pid, before, tid)
  }

  /** Whether thread creations are reported. */
  predicate Reporting(items: seq<Item>)
    decreases |items|
  {
    items != [] &&
    var last := items[|items| - 1];
    if last.SetOnCreation? then last.on else Reporting(items[..|items| - 1])
  }

  /** The breakpoints created so far. */
  function Created(items: seq<Item>): seq<Word64>
    decreases |items|
  {
    if items == [] then []
    else
      var last := items[|items| - 1];
      Created(items[..|items| - 1]) + if last.CreateBreakPoint? then [last.addr] else []
  }

  /** The stop is one that handleEvent leaves to the breakpoints: SIGSEGV is 11, SIGSTOP 19, SIGTRAP 5,
      PTRACE_EVENT_CLONE 3, and there are four watchpoints. */
  predicate LeftToBreakPoints(event: ThreadEvent, pending: bool, dr6: bv64) {
    || event.Undetermined?
    || (event.Stopped? && (event.signal == 11 || event.signal == 19))
    || (event.Stopped? && event.signal == 5 && !pending && event.ptraceEvent != 3
        && forall j: nat | j < 4 :: !Flagged(dr6, j))
  }

  /** The instruction pointer is one past an address. */
  predicate JustPast(addr: Word64, rip: Word64) {
    rip == addr + 1 || (rip == 0 && addr == 0xFFFF_FFFF_FFFF_FFFF)
  }

  /** `b` is the first breakpoint that the thread has just run into. */
  predicate FirstBefore(breakPoints: seq<Word64>, rip: Word64, b: nat) {
    b < |breakPoints| && JustPast(breakPoints[b], rip) && forall j | 0 <= j < b :: !JustPast(breakPoints[j], rip)
  }

  lemma BeforeIsJustPast(addr: Word64, rip: Word64)
    ensures addr == Before(rip) <==> JustPast(addr, rip)
  {
  }

  // ---------------------------------------------------------------- the invariant

  predicate Distinct(threads: seq<Thread>) {
    forall i, j | 0 <= i < j < |threads| :: threads[i].tid != threads[j].tid
  }

  predicate Knows(p: Program, tid: int) {
    exists i :: 0 <= i < |p.threads| && p.threads[i].tid == tid
  }

  /** Every creation is of a known thread and precedes all other callbacks of its thread. */
  predicate CallbacksOk(p: Program) {
    && (forall k | 0 <= k < |p.callbacks| :: Knows(p, p.callbacks[k].tid))
    && (forall j, k | 0 <= j < k < |p.callbacks| && p.callbacks[k].Creation? :: p.callbacks[j].tid != p.callbacks[k].tid)
  }

  predicate Inv(p: Program) {
    Distinct(p.threads) && CallbacksOk(p)
  }

  lemma {:induction false} StepKeepsInv(p: Program, item: Item)
    requires Inv(p)
    ensures Inv(Step(p, item))
  {
    hide HandleEvent, Hits, Before;
    var p' := Step(p, item);
    StepKeepsThreads(p, item);
    if item.Event? && item.tid != p.pid {
      var i := FindThread(p.threads, item.tid, 0);
      assert p'.threads[i].tid == item.tid;
      if i == |p.threads| {
        NewThreadHasNoCallbacks(p, item.tid);
      } else {
        HitsAreHits(p, item.tid, HandleEvent(item.event, p.threads[i].expected, item.dr6), item.rip);
      }
      AddedKeepsCallbacks(p, p', item.tid);
    } else {
      AddedKeepsCallbacks(p, p', 0);
    }
  }

  /** Known threads stay where they are. */
  predicate ThreadsKept(p: Program, p': Program) {
    |p.threads| <= |p'.threads| && forall i | 0 <= i < |p.threads| :: p'.threads[i].tid == p.threads[i].tid
  }

  lemma StepKeepsThreads(p: Program, item: Item)
    requires Distinct(p.threads)
    ensures Distinct(Step(p, item).threads) && ThreadsKept(p, Step(p, item))
  {
    hide HandleEvent, Hits, Before;
  }

  lemma NewThreadHasNoCallbacks(p: Program, tid: int)
    requires CallbacksOk(p) && FindThread(p.threads, tid, 0) == |p.threads|
    ensures forall k | 0 <= k < |p.callbacks| :: p.callbacks[k].tid != tid
  {
  }

  lemma HitsAreHits(p: Program, tid: int, outcome: Outcome, rip: Word64)
    ensures forall k | 0 <= k < |Hits(p, tid, outcome, rip)| ::
              Hits(p, tid, outcome, rip)[k].tid == tid && Hit(Hits(p, tid, outcome, rip)[k])
  {
  }

  /** New callbacks are of a known thread, and a creation only if there was none of its thread before. */
  lemma AddedKeepsCallbacks(p: Program, p': Program, tid: int)
    requires CallbacksOk(p) && ThreadsKept(p, p') && p.callbacks <= p'.callbacks
    requires |p'.callbacks| > |p.callbacks| ==> Knows(p', tid)
    requires forall k | |p.callbacks| <= k < |p'.callbacks| :: p'.callbacks[k].tid == tid
    requires forall k | |p.callbacks| <= k < |p'.callbacks| && p'.callbacks[k].Creation? ::
               k == |p.callbacks| && forall j | 0 <= j < k :: p.callbacks[j].tid != tid
    ensures CallbacksOk(p')
  {
    forall k | 0 <= k < |p'.callbacks|
      ensures Knows(p', p'.callbacks[k].tid)
    {
      if k < |p.callbacks| {
        assert p'.callbacks[k] == p.callbacks[k];
        var i :| 0 <= i < |p.threads| && p.threads[i].tid == p.callbacks[k].tid;
        assert p'.threads[i].tid == p.callbacks[k].tid;
      }
    }
  }

  lemma {:induction false} RunKeepsInv(p: Program, items: seq<Item>)
    requires Init(p)
    ensures Inv(Run(p, items)) && Run(p, items).pid == p.pid
    decreases |items|
  {
    if items != [] {
      RunKeepsInv(p, items[..|items| - 1]);
      StepKeepsInv(Run(p, items[..|items| - 1]), items[|items| - 1]);
    }
  }

  /** The dispatcher's state is what the history says. */
  lemma {:induction false} StateIsHistory(p: Program, items: seq<Item>, tid: int)
    requires Init(p)
    ensures var q, i := Run(p, items), FindThread(Run(p, items).threads, tid, 0);
            && (i < |q.threads| <==> Seen(p.pid, items, tid))
            && (i < |q.threads| ==> q.threads[i].expected == StepPending(p.pid, items, tid))
            && q.onCreation == Reporting(items) && q.breakPoints == Created(items)
    decreases |items|
  {
    if items != [] {
      var before, last := items[..|items| - 1], items[|items| - 1];
      StateIsHistory(p, before, tid);
      RunKeepsInv(p, before);
      SeenSnoc(p.pid, before, last, tid);
      assert items == before + [last];
      StepFindsThread(Run(p, before), last, tid);
    }
  }

  lemma SeenSnoc(pid: int, items: seq<Item>, item: Item, tid: int)
    ensures Seen(pid, items + [item], tid) <==>
            Seen(pid, items, tid) || (tid != pid && item.Event? && item.tid == tid)
  {
    var all := items + [item];
    if Seen(pid, items, tid) {
      var k :| 0 <= k < |items| && items[k].Event? && items[k].tid == tid;
      assert all[k] == items[k];
    }
    if item.Event? && item.tid == tid {
      assert all[|items|] == item;
    }
  }

  /** How one step changes the entry of one thread. */
  lemma StepFindsThread(p: Program, item: Item, tid: int)
    requires Distinct(p.threads)
    ensures var p', i := Step(p, item), FindThread(p.threads, tid, 0);
            var i' := FindThread(p'.threads, tid, 0);
            if i < |p.threads| then
              && i' == i
              && p'.threads[i].expected ==
                 if item.ExpectStep? && item.tid == tid then true
                 else if item.StepTimesOut? && item.tid == tid then false
                 else if item.Event? && item.tid == tid && tid != p.pid then
                   HandleEvent(item.event, p.threads[i].expected, item.dr6).expected
                 else p.threads[i].expected
            else if item.Event? && item.tid == tid && tid != p.pid then
              i' < |p'.threads| && !p'.threads[i'].expected
            else i' == |p'.threads|
  {
    hide HandleEvent;
    match item
    case ExpectStep(x) => ExpectingFindsThread(p, x, true, tid);
    case StepTimesOut(x) => ExpectingFindsThread(p, x, false, tid);
    case Event(_, _, _, _) => EventFindsThread(p, item, tid);
    case _ =>
  }

  lemma ExpectingFindsThread(p: Program, x: int, expected: bool, tid: int)
    ensures var p', i := Expecting(p, x, expected), FindThread(p.threads, tid, 0);
            && |p'.threads| == |p.threads| && FindThread(p'.threads, tid, 0) == i
            && (i < |p.threads| ==> p'.threads[i].expected == if x == tid then expected else p.threads[i].expected)
  {
    var p', i := Expecting(p, x, expected), FindThread(p.threads, tid, 0);
    assert forall j | 0 <= j < |p.threads| :: p'.threads[j].tid == p.threads[j].tid;
    if i < |p.threads| {
      assert p'.threads[i].tid == tid;
    }
  }

  lemma EventFindsThread(p: Program, item: Item, tid: int)
    requires item.Event?
    ensures var p', i := Step(p, item), FindThread(p.threads, tid, 0);
            var i' := FindThread(p'.threads, tid, 0);
            if i < |p.threads| then
              && i' == i
              && p'.threads[i].expected == if item.tid == tid && tid != p.pid then
                   HandleEvent(item.event, p.threads[i].expected, item.dr6).expected
                 else p.threads[i].expected
            else if item.tid == tid && tid != p.pid then i' < |p'.threads| && !p'.threads[i'].expected
            else i' == |p'.threads|
  {
    hide HandleEvent;
    var p', i := Step(p, item), FindThread(p.threads, tid, 0);
    assert forall j | 0 <= j < |p.threads| :: p'.threads[j].tid == p.threads[j].tid;
    if i < |p.threads| {
      assert p'.threads[i].tid == tid;
    } else if |p'.threads| > |p.threads| {
      assert p'.threads[|p.threads|].tid == item.tid;
    }
  }

  // ---------------------------------------------------------------- what it means

  /** The tids stay pairwise distinct, and they are those of the threads that had events. */
  lemma {:induction false} TidsStayDistinct(p: Program, items: seq<Item>)
    requires Init(p)
    ensures var q := Run(p, items);
            && Distinct(q.threads)
            && forall tid :: Knows(q, tid) <==> Seen(p.pid, items, tid)
  {
    RunKeepsInv(p, items);
    var q := Run(p, items);
    forall tid ensures Knows(q, tid) <==> Seen(p.pid, items, tid) {
      StateIsHistory(p, items, tid);
      if FindThread(q.threads, tid, 0) < |q.threads| {
        assert q.threads[FindThread(q.threads, tid, 0)].tid == tid;
      }
    }
  }

  /** What item `n` makes the dispatcher queue. */
  function Queued(p: Program, items: seq<Item>, n: nat): (r: seq<Callback>)
    requires n < |items|
  {
    var was, now := Run(p, items[..n]).callbacks, Run(p, items[..n + 1]).callbacks;
    if |was| <= |now| then now[|was|..] else []
  }

  /** Exactly which callbacks an event queues, told from the history alone: a creation for the first
      event of a thread while creations are reported; a watchpoint hit for a SIGTRAP of a known thread
      with a debug-status bit set; a breakpoint hit for a stop that is left to the breakpoints and
      whose instruction pointer is one past a breakpoint. */
  lemma {:induction false} QueuedExactly(p: Program, items: seq<Item>, n: nat, c: Callback)
    requires Init(p) && n < |items|
    ensures Run(p, items[..n + 1]).callbacks == Run(p, items[..n]).callbacks + Queued(p, items, n)
    ensures |Queued(p, items, n)| <= 1
    ensures c in Queued(p, items, n) <==>
            && items[n].Event? && items[n].tid == c.tid != p.pid
            && var (tid, event, dr6, past) := (items[n].tid, items[n].event, items[n].dr6, items[..n]);
               match c
               case Creation(_) => !Seen(p.pid, past, tid) && Reporting(past)
               case WatchHit(_, idx) =>
                 Seen(p.pid, past, tid) && event.Stopped? && event.signal == 5 && Triggered(dr6, 0) == Some(idx)
               case BreakHit(b, _) =>
                 Seen(p.pid, past, tid) && LeftToBreakPoints(event, StepPending(p.pid, past, tid), dr6)
                 && FirstBefore(Created(past), items[n].rip, b)
  {
    assert items[..n + 1][..n] == items[..n];
    var q, item := Run(p, items[..n]), items[n];
    RunKeepsInv(p, items[..n]);
    StateIsHistory(p, items[..n], c.tid);
    StepQueues(q, item, c);
    StepGrows(q, item);
  }

  lemma StepGrows(q: Program, item: Item)
    ensures q.callbacks <= Step(q, item).callbacks && |Step(q, item).callbacks| <= |q.callbacks| + 1
  {
  }

  lemma StepQueues(q: Program, item: Item, c: Callback)
    ensures q.callbacks <= Step(q, item).callbacks
    ensures c in Step(q, item).callbacks[|q.callbacks|..] <==>
            && item.Event? && item.tid == c.tid != q.pid
            && var i := FindThread(q.threads, item.tid, 0);
               match c
               case Creation(_) => i == |q.threads| && q.onCreation
               case WatchHit(_, idx) =>
                 i < |q.threads| && item.event.Stopped? && item.event.signal == SIGTRAP && Triggered(item.dr6, 0) == Some(idx)
               case BreakHit(b, _) =>
                 i < |q.threads| && LeftToBreakPoints(item.event, q.threads[i].expected, item.dr6)
                 && FirstBefore(q.breakPoints, item.rip, b)
  {
    hide HandleEvent, Flagged, FindBreakPoint, LeftToBreakPoints;
    if item.Event? && item.tid != q.pid {
      var i := FindThread(q.threads, item.tid, 0);
      var added := Step(q, item).callbacks[|q.callbacks|..];
      if i < |q.threads| {
        var outcome := HandleEvent(item.event, q.threads[i].expected, item.dr6);
        assert added == Hits(q, item.tid, outcome, item.rip);
        HitsExactly(q, item.tid, outcome, item.rip, c);
        HandledExactly(item.event, q.threads[i].expected, item.dr6);
      } else {
        assert added == if q.onCreation then [Creation(item.tid)] else [];
      }
    }
  }

  lemma HitsExactly(q: Program, tid: int, outcome: Outcome, rip: Word64, c: Callback)
    ensures c in Hits(q, tid, outcome, rip) <==>
            && c.tid == tid
            && match c
               case Creation(_) => false
               case WatchHit(_, idx) => outcome.hit == Some(idx)
               case BreakHit(b, _) => !outcome.handled && FirstBefore(q.breakPoints, rip, b)
  {
    forall k | 0 <= k < |q.breakPoints|
      ensures q.breakPoints[k] == Before(rip) <==> JustPast(q.breakPoints[k], rip)
    {
      BeforeIsJustPast(q.breakPoints[k], rip);
    }
  }

  /** What handleEvent leaves to the breakpoints, and the watchpoint it finds. */
  lemma HandledExactly(event: ThreadEvent, pending: bool, dr6: bv64)
    ensures var outcome := HandleEvent(event, pending, dr6);
            && (!outcome.handled <==> LeftToBreakPoints(event, pending, dr6))
            && outcome.hit == if event.Stopped? && event.signal == SIGTRAP then Triggered(dr6, 0) else None
  {
    hide Flagged;
  }

  /** So a SIGTRAP that comes while a single step of its thread is under way is never taken for a
      breakpoint, wherever the thread is. */
  lemma {:induction false} ExpectedTrapHitsNoBreakPoint(p: Program, items: seq<Item>, n: nat, b: nat)
    requires Init(p) && n < |items| && items[n].Event? && items[n].event.Stopped? && items[n].event.signal == SIGTRAP
    requires StepPending(p.pid, items[..n], items[n].tid)
    ensures BreakHit(b, items[n].tid) !in Queued(p, items, n)
  {
    QueuedExactly(p, items, n, BreakHit(b, items[n].tid));
  }

  /** A stop at a breakpoint of a known thread is dispatched as a hit exactly if no step of the thread is
      under way, the stop is not a clone event, and no debug-status bit is set. */
  lemma BreakPointStopIsDispatchedExactlyIf(p: Program, items: seq<Item>, n: nat, b: nat)
    requires Init(p) && n < |items| && items[n].Event? && items[n].event.Stopped? && items[n].event.signal == SIGTRAP
    requires Seen(p.pid, items[..n], items[n].tid) && FirstBefore(Created(items[..n]), items[n].rip, b)
    ensures BreakHit(b, items[n].tid) in Queued(p, items, n) <==>
            && !StepPending(p.pid, items[..n], items[n].tid) && items[n].event.ptraceEvent != PTRACE_EVENT_CLONE
            && forall j: nat | j < MAX_WATCHPOINTS :: !Flagged(items[n].dr6, j)
  {
    hide Run, Flagged, FirstBefore;
    QueuedExactly(p, items, n, BreakHit(b, items[n].tid));
  }

  predicate TrapOf(item: Item, tid: int) {
    item.Event? && item.tid == tid && item.event.Stopped? && item.event.signal == SIGTRAP
  }

  /** Neither a SIGTRAP of the thread nor a step of it that is given up. */
  predicate NoEndOf(items: seq<Item>, tid: int) {
    forall k | 0 <= k < |items| :: !TrapOf(items[k], tid) && items[k] != StepTimesOut(tid)
  }

  /** A step stays under way until a SIGTRAP of its thread comes or the step is given up, whatever else
      comes. */
  lemma {:induction false} StepStaysPending(pid: int, a: seq<Item>, b: seq<Item>, tid: int)
    requires Seen(pid, a, tid) && NoEndOf(b, tid)
    ensures StepPending(pid, a + [ExpectStep(tid)] + b, tid) && Seen(pid, a + [ExpectStep(tid)] + b, tid)
    decreases |b|
  {
    var all := a + [ExpectStep(tid)] + b;
    if b == [] {
      assert all[..|all| - 1] == a;
      assert all == a + [ExpectStep(tid)];
      SeenSnoc(pid, a, ExpectStep(tid), tid);
    } else {
      var c := b[..|b| - 1];
      assert forall k | 0 <= k < |c| :: c[k] == b[k];
      assert all[..|all| - 1] == a + [ExpectStep(tid)] + c;
      StepStaysPending(pid, a, c, tid);
      assert all == a + [ExpectStep(tid)] + c + [b[|b| - 1]];
      SeenSnoc(pid, a + [ExpectStep(tid)] + c, b[|b| - 1], tid);
    }
  }

  /** So the first SIGTRAP of a thread after a singleStep that has not given up is taken for the end of
      that step even if it is not: when the step faulted, or its own trap was overtaken, the hit of the breakpoint that the thread
      runs into is lost. Only the first: then no step is under way. */
  lemma FirstTrapAfterStepIsNoHit(p: Program, a: seq<Item>, b: seq<Item>, trap: Item, i: nat)
    requires Init(p) && trap.Event? && TrapOf(trap, trap.tid) && Seen(p.pid, a, trap.tid) && NoEndOf(b, trap.tid)
    ensures var past := a + [ExpectStep(trap.tid)] + b;
            && BreakHit(i, trap.tid) !in Queued(p, past + [trap], |past|)
            && !StepPending(p.pid, past + [trap], trap.tid)
  {
    var past := a + [ExpectStep(trap.tid)] + b;
    assert (past + [trap])[..|past|] == past && (past + [trap])[|past|] == trap;
    StepStaysPending(p.pid, a, b, trap.tid);
    ExpectedTrapHitsNoBreakPoint(p, past + [trap], |past|, i);
  }

  /** A step that has been given up no longer hides a breakpoint: its thread's next stop at one is dispatched
      unless it is a clone event or a status bit is set. */
  lemma GivenUpStepHidesNothing(p: Program, a: seq<Item>, trap: Item, i: nat)
    requires Init(p) && trap.Event? && TrapOf(trap, trap.tid) && Seen(p.pid, a, trap.tid)
    requires FirstBefore(Created(a + [StepTimesOut(trap.tid)]), trap.rip, i)
    ensures var past := a + [StepTimesOut(trap.tid)];
            BreakHit(i, trap.tid) in Queued(p, past + [trap], |past|) <==>
            && trap.event.ptraceEvent != PTRACE_EVENT_CLONE
            && forall j: nat | j < MAX_WATCHPOINTS :: !Flagged(trap.dr6, j)
  {
    hide Run, Flagged;
    var past := a + [StepTimesOut(trap.tid)];
    assert past[..|past| - 1] == a;
    SeenSnoc(p.pid, a, StepTimesOut(trap.tid), trap.tid);
    assert (past + [trap])[..|past|] == past && (past + [trap])[|past|] == trap;
    BreakPointStopIsDispatchedExactlyIf(p, past + [trap], |past|, i);
  }

  /** A fault during the step is such a case, and is itself looked up among the breakpoints. */
  lemma FaultDuringStepIsLookedUp(p: Program, a: seq<Item>, b: seq<Item>, fault: Item, i: nat)
    requires Init(p) && fault.Event? && fault.event.Stopped? && fault.event.signal == SIGSEGV
    requires Seen(p.pid, a, fault.tid) && NoEndOf(b, fault.tid)
    ensures var past := a + [ExpectStep(fault.tid)] + b;
            && (BreakHit(i, fault.tid) in Queued(p, past + [fault], |past|) <==> FirstBefore(Created(past), fault.rip, i))
            && StepPending(p.pid, past + [fault], fault.tid)
  {
    var past := a + [ExpectStep(fault.tid)] + b;
    assert (past + [fault])[..|past|] == past && (past + [fault])[|past|] == fault;
    StepStaysPending(p.pid, a, b, fault.tid);
    QueuedExactly(p, past + [fault], |past|, BreakHit(i, fault.tid));
    assert past + [fault] == a + [ExpectStep(fault.tid)] + (b + [fault]);
    StepStaysPending(p.pid, a, b + [fault], fault.tid);
  }

  /** Each creation is queued at most once, before every other callback of its thread. */
  lemma {:induction false} CreationIsQueuedFirst(p: Program, items: seq<Item>, j: nat, k: nat)
    requires Init(p)
    requires var q := Run(p, items).callbacks; j < k < |q| && q[j].tid == q[k].tid
    ensures Hit(Run(p, items).callbacks[k])
  {
    RunKeepsInv(p, items);
  }

  /** The callbacks of the dispatcher among all that has been pushed; `decode` tells what a request
      stands for, and that it is another producer's. */
  function Pushed(decode: int -> Option<Callback>, enqueued: seq<CommandQueue.Command>): seq<Callback>
    decreases |enqueued|
  {
    if enqueued == [] then []
    else
      var c := decode(enqueued[|enqueued| - 1].request);
      Pushed(decode, enqueued[..|enqueued| - 1]) + if c.Some? then [c.value] else []
  }

  /** A callback of the dispatcher has its place among the pushes, and what was queued before it was
      pushed before it. */
  lemma {:induction false} PlaceOfPushed(decode: int -> Option<Callback>, enqueued: seq<CommandQueue.Command>, x: nat)
    requires x < |enqueued| && decode(enqueued[x].request).Some?
    ensures |Pushed(decode, enqueued[..x])| < |Pushed(decode, enqueued)|
    ensures Pushed(decode, enqueued)[|Pushed(decode, enqueued[..x])|] == decode(enqueued[x].request).value
    ensures Pushed(decode, enqueued[..x]) <= Pushed(decode, enqueued)
    decreases |enqueued|
  {
    var front := enqueued[..|enqueued| - 1];
    if x < |front| {
      assert front[..x] == enqueued[..x] && front[x] == enqueued[x];
      PlaceOfPushed(decode, front, x);
    } else {
      assert front == enqueued[..x];
    }
  }

  lemma {:induction false} PushedHasPlace(decode: int -> Option<Callback>, enqueued: seq<CommandQueue.Command>, c: Callback)
      returns (x: nat)
    requires c in Pushed(decode, enqueued)
    ensures x < |enqueued| && decode(enqueued[x].request) == Some(c)
    decreases |enqueued|
  {
    var front := enqueued[..|enqueued| - 1];
    if decode(enqueued[|enqueued| - 1].request) == Some(c) {
      x := |enqueued| - 1;
    } else {
      x := PushedHasPlace(decode, front, c);
      assert front[x] == enqueued[x];
    }
  }

  /** The callback handler runs callbacks in the order they were pushed. Whoever else pushes, and however
      far the dispatcher's own pushes have got: when a hit of a thread has been run whose creation was
      queued, that creation was run earlier. */
  lemma CreationIsRunFirst(p: Program, items: seq<Item>, s0: CommandQueue.State, ls: seq<CommandQueue.Label>,
                           decode: int -> Option<Callback>, x: nat) returns (y: nat)
    requires Init(p) && CommandQueue.Init(s0) && CommandQueue.RunOk(s0, ls) && s0.kind == CommandQueue.CALLBACKS
    requires Pushed(decode, CommandQueue.Exec(s0, ls).enqueued) <= Run(p, items).callbacks
    requires var s := CommandQueue.Exec(s0, ls);
             && x < |s.executed| && decode(s.executed[x].request).Some?
             && Hit(decode(s.executed[x].request).value)
             && Creation(decode(s.executed[x].request).value.tid) in Run(p, items).callbacks
    ensures var s := CommandQueue.Exec(s0, ls);
            y < x && decode(s.executed[y].request) == Some(Creation(decode(s.executed[x].request).value.tid))
  {
    hide Init, Run, Pushed;
    CommandQueue.RunsInOrder(s0, ls);
    RunKeepsInv(p, items);
    var s := CommandQueue.Exec(s0, ls);
    assert s.enqueued[x] == s.executed[x];
    hide CommandQueue.Exec, CommandQueue.RunOk, CommandQueue.Init;
    y := CreationIsPushedFirst(Run(p, items), decode, s.enqueued, x);
    assert s.enqueued[y] == s.executed[y];
  }

  lemma CreationIsPushedFirst(q: Program, decode: int -> Option<Callback>, enqueued: seq<CommandQueue.Command>, x: nat)
      returns (y: nat)
    requires CallbacksOk(q) && Pushed(decode, enqueued) <= q.callbacks
    requires x < |enqueued| && decode(enqueued[x].request).Some? && Hit(decode(enqueued[x].request).value)
    requires Creation(decode(enqueued[x].request).value.tid) in q.callbacks
    ensures y < x && decode(enqueued[y].request) == Some(Creation(decode(enqueued[x].request).value.tid))
  {
    hide Pushed;
    var hit := decode(enqueued[x].request).value;
    PlaceOfPushed(decode, enqueued, x);
    var before := Pushed(decode, enqueued[..x]);
    var j := IndexOf(q.callbacks, Creation(hit.tid));
    assert q.callbacks[|before|] == hit;
    assert j < |before| && before[j] == q.callbacks[j];
    y := PushedHasPlace(decode, enqueued[..x], Creation(hit.tid));
    assert enqueued[..x][y] == enqueued[y];
  }

  function IndexOf(q: seq<Callback>, c: Callback): (i: nat)
    requires c in q
    ensures i < |q| && q[i] == c
  {
    if q[0] == c then 0 else 1 + IndexOf(q[1..], c)
  }

  // ---------------------------------------------------------------- the object

  class SpiedProgram {
    const pid: int
    var threads: seq<Thread>
    var breakPoints: seq<Word64>
    var onCreation: bool
    var callbacks: seq<Callback>

    constructor (pid: int)
      ensures this.pid == pid && Init(View())
    {
      this.pid, threads, breakPoints, onCreation, callbacks := pid, [], [], false, [];
    }

    function View(): Program
      reads this
    {
      Program(pid, threads, breakPoints, onCreation, callbacks)
    }

    /** SpiedProgram::listenEvent, with whatever clients do between two events. */
    method ListenEvent(items: seq<Item>)
      modifies this
      ensures View() == Run(old(View()), items)
    {
      for n := 0 to |items|
        invariant View() == Run(old(View()), items[..n])
      {
        assert items[..n + 1][..n] == items[..n];
        match items[n] {
          case Event(tid, event, dr6, rip) =>
            if tid != pid {
              Dispatch(tid, event, dr6, rip);
            }
          case ExpectStep(tid) => Expect(tid, true);
          case StepTimesOut(tid) => Expect(tid, false);
          case SetOnCreation(on) =>
            onCreation := on;
          case CreateBreakPoint(addr) =>
            breakPoints := breakPoints + [addr];
        }
      }
      assert items[..|items|] == items;
    }

    /** _isSigTrapExpected is assigned by singleStep. */
    method Expect(tid: int, expected: bool)
      modifies this`threads
      ensures View() == Expecting(old(View()), tid, expected)
    {
      var i := Find(tid);
      if i < |threads| {
        threads := threads[i := threads[i].(expected := expected)];
      }
    }

    method Find(tid: int) returns (i: nat)
      ensures i == FindThread(threads, tid, 0)
    {
      i := 0;
      while i < |threads| && threads[i].tid != tid
        invariant i <= |threads| && FindThread(threads, tid, 0) == FindThread(threads, tid, i)
      {
        i := i + 1;
      }
    }

    method Dispatch(tid: int, event: ThreadEvent, dr6: bv64, rip: Word64)
      requires tid != pid
      modifies this`threads, this`callbacks
      ensures View() == Step(old(View()), Event(tid, event, dr6, rip))
    {
      hide HandleEvent, FindThread, FindBreakPoint, Before;
      var i := Find(tid);
      if i == |threads| {
        threads := threads + [Thread(tid, false)];
        if onCreation {
          callbacks := callbacks + [Creation(tid)];
        }
      } else {
        var handled := HandleEventOf(i, event, dr6);
        if !handled {
          LookUp(tid, rip);
        }
      }
    }

    /** The search for a breakpoint just before `rip`, and its hit(). */
    method LookUp(tid: int, rip: Word64)
      modifies this`callbacks
      ensures var b := FindBreakPoint(breakPoints, Before(rip), 0);
              callbacks == old(callbacks) + if b < |breakPoints| then [BreakHit(b, tid)] else []
    {
      hide Before;
      var b := 0;
      while b < |breakPoints| && breakPoints[b] != Before(rip)
        invariant 0 <= b <= |breakPoints|
        invariant FindBreakPoint(breakPoints, Before(rip), 0) == FindBreakPoint(breakPoints, Before(rip), b)
      {
        b := b + 1;
      }
      if b < |breakPoints| {
        callbacks := callbacks + [BreakHit(b, tid)];
      }
    }

    /** SpiedThread::handleEvent of thread `i`, with its call of WatchPoint::hit. */
    method HandleEventOf(i: nat, event: ThreadEvent, dr6: bv64) returns (handled: bool)
      requires i < |threads|
      modifies this`threads, this`callbacks
      ensures var outcome, tid := HandleEvent(event, old(threads[i].expected), dr6), old(threads[i].tid);
              && handled == outcome.handled
              && threads == old(threads)[i := Thread(tid, outcome.expected)]
              && callbacks == old(callbacks) + if outcome.hit.Some? then [WatchHit(tid, outcome.hit.value)] else []
    {
      hide Flagged;
      handled := false;
      match event {
        case Stopped(signal, ptraceEvent) =>
          if signal == SIGTRAP {
            if threads[i].expected {
              threads := threads[i := threads[i].(expected := false)];
              handled := true;
            }
            if ptraceEvent == PTRACE_EVENT_CLONE {
              handled := true;
            }
            var idx := 0;
            while idx < MAX_WATCHPOINTS
              invariant 0 <= idx <= MAX_WATCHPOINTS && Triggered(dr6, 0) == Triggered(dr6, idx)
            {
              if Flagged(dr6, idx) {
                callbacks := callbacks + [WatchHit(threads[i].tid, idx)];
                handled := true;
                break;
              }
              idx := idx + 1;
            }
          } else if signal != SIGSEGV && signal != SIGSTOP {
            handled := true;
          }
        case Undetermined =>
        case _ =>
          handled := true;
      }
    }
  }
}
