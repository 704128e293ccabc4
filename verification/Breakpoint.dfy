/**
 Software breakpoints: an INT3 patched over the first byte of an instruction, and the dance that
 steps a thread over it.
 */
module BreakPoints {
  import opened Words
  import opened Ptrace
  import opened RegisterCache
  import opened CacheTheorems
  import opened Reserved
  import opened Events
  import opened SpiedThreads

  const INT3: bv64 := 0xCC
  const INT3_BYTE: bv8 := 0xCC

  /** (backup & ~0xFF) | INT3 */
  function Patch(backup: bv64): bv64 {
    (backup & 0xFFFF_FFFF_FFFF_FF00) | INT3
  }

  lemma PatchByBytes(b0: bv8, b1: bv8, b2: bv8, b3: bv8, b4: bv8, b5: bv8, b6: bv8, b7: bv8)
    ensures Patch(Join8(b0, b1, b2, b3, b4, b5, b6, b7)) == Join8(INT3_BYTE, b1, b2, b3, b4, b5, b6, b7)
  {
  }

  /** The patched word differs from the original in its first byte only, which is INT3. */
  lemma {:induction false} PatchedOctets(b: Octets)
    ensures ToOctets(Patch(ToWord(b))) == [0xCC] + b[1..] && INT3_BYTE == 0xCC
  {
    hide ToOctets, Patch, Join8;
    PatchByBytes(b[0], b[1], b[2], b[3], b[4], b[5], b[6], b[7]);
    OctetsOfJoin(INT3_BYTE, b[1], b[2], b[3], b[4], b[5], b[6], b[7]);
  }

  lemma PokeLoad(m: Memory, a: Word64, b: Octets)
    requires Mapped(m, a)
    ensures Load(Poke(m, a, b), a) == b
  {
  }

  /** Enqueueing a write of the breakpoint's own word settles what that word will be. */
  lemma OwnPoke(w: World, w': World, a: Word64, b: Octets)
    requires w.done <= |w.log| && w' == Enqueue(w, PokeData(a, b)) && Mapped(w.tracee.mem, a)
    ensures Mapped(Eventual(w'), a) && Load(Eventual(w'), a) == b
  {
    assert Queue(w') == Queue(w) + [PokeData(a, b)];
    MemAfterConcat(w.tracee.mem, Queue(w), [PokeData(a, b)]);
    assert [PokeData(a, b)][..0] == [];
    PokeLoad(Eventual(w), a, b);
  }

  lemma StillAtRest(w: World, w': World)
    requires w.done <= |w.log| && AtRest(w) && w'.done == w.done && w.log <= w'.log && |w'.log| == |w.log| + 1
    requires w'.log[|w.log|].PokeData?
    requires w'.state == w.state && w'.status == w.status && w'.stepping == w.stepping
    ensures AtRest(w')
  {
    assert Queue(w') == Queue(w) + [w'.log[|w.log|]];
  }

  /** Resting leaves a stopped thread stopped, and its registers alone. */
  lemma RestedHalts(w: World, w': World, reserved: set<Word64>)
    requires Rested(w, w', reserved) && !w.status.Running? && w.done <= |w.log| && NoGo(Queue(w))
    ensures w'.done <= |w'.log| && NoGo(Queue(w')) && w'.status == w.status && w'.tracee.regs == w.tracee.regs
    ensures w'.state == w.state && w'.stepping == w.stepping
  {
  }

  /** What was enqueued up to `w` has run, and nothing since writes the word. */
  lemma OldWritesAreGone(w: World, w': World, r: Word64, reserved: set<Word64>)
    requires Kept(w, w', reserved) && r in reserved && |w.log| <= w'.done
    ensures w'.done <= |w'.log| && AllClear(Queue(w'), {r})
  {
    forall i | 0 <= i < |Queue(w')|
      ensures Clear(Queue(w')[i], {r})
    {
      assert Queue(w')[i] == w'.log[|w.log|..][w'.done - |w.log| + i];
    }
  }

  /** A word in memory that nothing queued writes stays when others leave it alone. */
  lemma StaysRestored(w: World, w': World, r: Word64, reserved: set<Word64>)
    requires Kept(w, w', reserved) && r in reserved && w.done <= |w.log| && AllClear(Queue(w), {r}) && Mapped(w.tracee.mem, r)
    ensures w'.done <= |w'.log| && AllClear(Queue(w'), {r})
    ensures Mapped(w'.tracee.mem, r) && Load(w'.tracee.mem, r) == Load(w.tracee.mem, r)
  {
    hide Spares, MemAfter;
    forall i | w.done <= i < |w'.log|
      ensures Clear(w'.log[i], {r})
    {
      if i < |w.log| {
        assert w'.log[i] == Queue(w)[i - w.done];
      } else {
        assert w'.log[i] == w'.log[|w.log|..][i - |w.log|];
      }
    }
    EventualIsNow(w, w.done, r);
    KeptWord(w, w', r, reserved);
    EventualIsNow(w', w.done, r);
  }

  class BreakPoint {
    const addr: Word64
    var backup: bv64
    var isSet: bool

    constructor (addr: Word64)
      ensures this.addr == addr && !isSet
    {
      this.addr, this.backup, this.isSet := addr, 0, false;
    }

    /** BreakPoint::set. `thread` watches the request go by in its tracer's queue. */
    method Set(thread: SpiedThread) returns (ok: bool)
      requires thread.Valid() && Mapped(thread.tracer.tracee.mem, addr)
      modifies this, thread`run, thread.tracer`commands, thread.tracer`issued, thread.tracer`log
      ensures thread.Valid() && thread.DirectFile() == old(thread.DirectFile())
      ensures ok && isSet
      ensures old(isSet) ==> backup == old(backup) && thread.Snapshot() == old(thread.Snapshot())
      ensures !old(isSet) ==>
                var word := Load(thread.tracer.tracee.mem, addr);
                && ToOctets(backup) == word
                && thread.Snapshot() == Enqueue(old(thread.Snapshot()), PokeData(addr, [INT3_BYTE] + word[1..]))
    {
      hide Exec, RunOk, ToWord, ToOctets, Patch;
      if !isSet {
        var word := Load(thread.tracer.tracee.mem, addr);
        backup := ToWord(word);
        OctetsRoundTrip(word);
        PatchedOctets(word);
        var future := thread.tracer.CommandPTrace(PokeData(addr, ToOctets(Patch(backup))));
        thread.Record(Produce(PokeData(addr, ToOctets(Patch(backup)))));
        isSet := true;
      }
      ok := isSet;
    }

    /** BreakPoint::unset. */
    method Unset(thread: SpiedThread) returns (ok: bool)
      requires thread.Valid()
      modifies this`isSet, thread`run, thread.tracer`commands, thread.tracer`issued, thread.tracer`log
      ensures thread.Valid() && thread.DirectFile() == old(thread.DirectFile())
      ensures ok && !isSet
      ensures !old(isSet) ==> thread.Snapshot() == old(thread.Snapshot())
      ensures old(isSet) ==> thread.Snapshot() == Enqueue(old(thread.Snapshot()), PokeData(addr, ToOctets(backup)))
    {
      hide Exec, RunOk, ToOctets;
      if isSet {
        var future := thread.tracer.CommandPTrace(PokeData(addr, ToOctets(backup)));
        thread.Record(Produce(PokeData(addr, ToOctets(backup))));
        isSet := false;
      }
      ok := !isSet;
    }

    /** A thread has just run into this breakpoint, and every write of the breakpoint's word has
        reached memory. */
    ghost predicate HitBy(thread: SpiedThread)
      reads this, thread, thread.tracer
    {
      && thread.Valid() && AtRest(thread.Snapshot()) && addr in thread.reserved
      && thread.DirectFile().regs.rip == addr + 1
      && isSet && Mapped(thread.tracer.tracee.mem, addr)
      && Load(thread.tracer.tracee.mem, addr) == [INT3_BYTE] + ToOctets(backup)[1..]
      && AllClear(thread.tracer.commands, {addr})
    }

    /** The word under the breakpoint is the original one, or will be when the queue has run. */
    ghost predicate Cleared(thread: SpiedThread)
      reads this, thread, thread.tracer
    {
      && thread.Valid() && addr in thread.reserved
      && var m := Eventual(thread.Snapshot()); Mapped(m, addr) && Load(m, addr) == ToOctets(backup)
    }

    /** The original word has reached memory. */
    ghost predicate Restored(thread: SpiedThread)
      reads this, thread, thread.tracer
    {
      && thread.Valid() && addr in thread.reserved && AllClear(thread.tracer.commands, {addr})
      && var m := thread.tracer.tracee.mem; Mapped(m, addr) && Load(m, addr) == ToOctets(backup)
    }

    /** The word under the breakpoint has INT3 in its first byte, or will have. */
    ghost predicate Patched(thread: SpiedThread)
      reads this, thread, thread.tracer
    {
      && thread.Valid() && addr in thread.reserved
      && var m := Eventual(thread.Snapshot()); Mapped(m, addr) && Load(m, addr) == [INT3_BYTE] + ToOctets(backup)[1..]
    }

    /** The thread is stopped with nothing queued that will let it go; its stop has been reported, or
        there is nothing in the cache to be written back. */
    ghost predicate Halted(thread: SpiedThread)
      reads thread, thread.tracer
    {
      && thread.Valid() && thread.state == STOPPED && thread.stepping.None? && NoGo(thread.tracer.commands)
      && (thread.tracer.status == Reported || (thread.tracer.status == Trapped && thread.regSync != NEW))
    }

    /** The registers with which a halted thread would go on. */
    ghost function RegsOf(thread: SpiedThread): Regs
      requires thread.Valid()
      reads thread, thread.tracer
    {
      if thread.tracer.status == Reported then thread.DirectFile().regs else thread.tracer.tracee.regs
    }

    /** What goes on between two statements while the thread is halted: the worker, other producers,
        and the event handler, which reports and handles the step's trap if it has not been. */
    method Meanwhile(thread: SpiedThread)
      requires Halted(thread)
      modifies thread, thread.tracer
      ensures Halted(thread) && Kept(old(thread.Snapshot()), thread.Snapshot(), thread.reserved)
      ensures Added(old(thread.Snapshot()), thread.Snapshot(), [])
      ensures RegsOf(thread) == old(RegsOf(thread))
      ensures old(thread.tracer.status) == Reported ==>
                thread.tracer.status == Reported && thread.DirectFile() == old(thread.DirectFile())
      ensures thread.isSigTrapExpected
              == (old(thread.isSigTrapExpected) && thread.tracer.status == old(thread.tracer.status))
    {
      hide Exec, RunOk, Kept, Gos, Direct, Rested;
      ghost var s := thread.Snapshot();
      thread.Interleave();
      RestedIsKept(s, thread.Snapshot(), thread.reserved);
      RestedHalts(s, thread.Snapshot(), thread.reserved);
      RestedAddsNothing(s, thread.Snapshot(), thread.reserved);
      var reported: bool := *;
      if reported && thread.tracer.status != Reported {
        ghost var s1 := thread.Snapshot();
        var handled, hit;
        ghost var seen;
        ghost var go, atGo;
        handled, hit, seen, go, atGo := thread.HandleStop(SIGTRAP, 0);
        KeptTrans(s, s1, thread.Snapshot(), thread.reserved);
        AddedBeside(s, s1, thread.Snapshot(), []);
      } else {
        RunKeepsInv(thread.origin, thread.run);
      }
    }

    /** jump(getRip() - 1). */
    method JumpBack(thread: SpiedThread)
      requires thread.Valid() && AtRest(thread.Snapshot()) && thread.DirectFile().regs.rip == addr + 1
      modifies thread, thread.tracer
      ensures thread.Valid() && AtRest(thread.Snapshot())
      ensures thread.DirectFile() == old(thread.DirectFile()).(regs := old(thread.DirectFile()).regs.(rip := addr))
      ensures Added(old(thread.Snapshot()), thread.Snapshot(), [])
      ensures |thread.tracer.tracee.mem| == old(|thread.tracer.tracee.mem|)
    {
      hide Exec, RunOk, Kept, StaysPut, Rested, Direct, Added;
      ghost var s0 := thread.Snapshot();
      var rip := thread.GetRip();
      ghost var s1 := thread.Snapshot();
      RestedIsKept(s0, s1, thread.reserved);
      thread.Jump((rip - 1) % 0x1_0000_0000_0000_0000);
      ghost var s2 := thread.Snapshot();
      RestedIsKept(s1, s2, thread.reserved);
      thread.Interleave();
      RestedIsKept(s2, thread.Snapshot(), thread.reserved);
      RestedSettled(s2, thread.Snapshot(), thread.reserved);
      RestedAddsNothing(s0, s1, thread.reserved);
      RestedAddsNothing(s1, s2, thread.reserved);
      RestedAddsNothing(s2, thread.Snapshot(), thread.reserved);
      AddedBeside(s0, s1, s2, []);
      AddedBeside(s0, s2, thread.Snapshot(), []);
    }

    /** jump(getRip() - 1) and unset: the start of resumeAndSet and resumeAndUnset. */
    method StepBack(thread: SpiedThread)
      requires HitBy(thread)
      modifies this`isSet, thread, thread.tracer
      ensures thread.Valid() && AtRest(thread.Snapshot()) && !isSet && Cleared(thread)
      ensures Added(old(thread.Snapshot()), thread.Snapshot(), [])
      ensures thread.DirectFile() == old(thread.DirectFile()).(regs := old(thread.DirectFile()).regs.(rip := addr))
    {
      hide Exec, RunOk, ToOctets, Eventual, Direct, Added;
      JumpBack(thread);
      ghost var s := thread.Snapshot();
      var ok := Unset(thread);
      OwnPoke(s, thread.Snapshot(), addr, ToOctets(backup));
      StillAtRest(s, thread.Snapshot());
      AddedQuiet(s, thread.Snapshot(), [PokeData(addr, ToOctets(backup))]);
      AddedBeside(old(thread.Snapshot()), s, thread.Snapshot(), []);
    }

    /** StepBack and singleStep. */
    method StepOver(thread: SpiedThread) returns (ok: bool, ghost ticket: nat, ghost sight: Sight)
      requires HitBy(thread)
      modifies this`isSet, thread, thread.tracer
      ensures ok && !isSet && Halted(thread) && thread.tracer.status == Trapped && thread.isSigTrapExpected
      ensures Restored(thread) && Added(old(thread.Snapshot()), thread.Snapshot(), [Command.SingleStep])
      ensures ReleasedAs(thread.Snapshot(), ticket, sight) && ticket < thread.tracer.executed
      ensures ticket < |thread.tracer.log| && thread.tracer.log[ticket] == Command.SingleStep
      ensures sight.regs == old(thread.DirectFile()).regs.(rip := addr)
      ensures Mapped(sight.mem, addr) && Load(sight.mem, addr) == ToOctets(backup)
      ensures ticket in thread.tracer.stepped && RegsOf(thread) == thread.tracer.stepped[ticket].regs
    {
      hide Exec, RunOk, Kept, Added, ToOctets, Eventual, StaysPut, ReleasedAs, Rested, Direct;
      StepBack(thread);
      ghost var base := thread.Snapshot();
      thread.Interleave();
      ghost var s := thread.Snapshot();
      RestedIsKept(base, s, thread.reserved);
      RestedSettled(base, s, thread.reserved);
      KeptWord(base, s, addr, thread.reserved);
      RestedAddsNothing(base, s, thread.reserved);
      AddedBeside(old(thread.Snapshot()), base, s, []);
      ok, ticket, sight := thread.SingleStep();
      AddedBeside(old(thread.Snapshot()), s, thread.Snapshot(), [Command.SingleStep]);
      KeptTrans(base, s, thread.Snapshot(), thread.reserved);
      KeptIsNow(base, thread.Snapshot(), addr, thread.reserved);
      OldWritesAreGone(base, thread.Snapshot(), addr, thread.reserved);
    }

    /** BreakPoint::resumeAndSet. At any moment between the step and the resumption the trap may be
        reported and handled, or not (`reported`). The PTRACE_SINGLESTEP of ticket `step` finds
        `atStep`, and the PTRACE_CONT of ticket `go` finds `atGo`. */
    method ResumeAndSet(thread: SpiedThread)
        returns (ok: bool, ghost step: nat, ghost atStep: Sight, ghost go: nat, ghost atGo: Sight, ghost reported: bool)
      requires HitBy(thread)
      modifies this, thread, thread.tracer
      ensures thread.Valid() && ok && isSet && backup == old(backup) && thread.state == CONTINUED
      ensures step < go < |thread.tracer.log|
      ensures thread.tracer.log[step] == Command.SingleStep && thread.tracer.log[go] == Cont(0)
      ensures Added(old(thread.Snapshot()), thread.Snapshot(), [Command.SingleStep, Cont(0)])
      ensures ReleasedAs(thread.Snapshot(), step, atStep) && ReleasedAs(thread.Snapshot(), go, atGo)
      // the original instruction is executed in its place
      ensures atStep.regs == old(thread.DirectFile()).regs.(rip := addr)
      ensures Mapped(atStep.mem, addr) && Load(atStep.mem, addr) == ToOctets(backup)
      // the thread goes on from where that instruction left it, with the breakpoint in place
      ensures step in thread.tracer.stepped && atGo.regs == thread.tracer.stepped[step].regs
      ensures Mapped(atGo.mem, addr) && Load(atGo.mem, addr) == [INT3_BYTE] + ToOctets(backup)[1..]
      // a trap that nobody reported is still expected
      ensures thread.isSigTrapExpected == !reported
    {
      hide Exec, RunOk, Kept, Added, ToOctets, Eventual, ReleasedAs, Direct, Halted, Restored, Patched;
      ok, step, atStep := StepOver(thread);
      ghost var s := thread.Snapshot();
      ok := SetAgain(thread, step, atStep);
      ghost var s1 := thread.Snapshot();
      reported, go, atGo := GoOn(thread, step, atStep);
      AddedBeside(old(thread.Snapshot()), s, s1, [Command.SingleStep]);
      AddedTrans(old(thread.Snapshot()), s1, thread.Snapshot(), [Command.SingleStep], [Cont(0)]);
      assert [Command.SingleStep] + [Cont(0)] == [Command.SingleStep, Cont(0)];
    }

    /** What happens after set in resumeAndSet: the trap may be reported before the resumption. */
    method GoOn(thread: SpiedThread, ghost step: nat, ghost atStep: Sight)
        returns (ghost reported: bool, ghost go: nat, ghost atGo: Sight)
      requires Halted(thread) && Patched(thread)
      requires step < thread.tracer.executed && ReleasedAs(thread.Snapshot(), step, atStep)
      requires step in thread.tracer.stepped && thread.isSigTrapExpected == (thread.tracer.status == Trapped)
      modifies thread, thread.tracer
      ensures thread.Valid() && thread.state == CONTINUED && thread.isSigTrapExpected == !reported
      ensures old(thread.tracer.log) <= thread.tracer.log && Added(old(thread.Snapshot()), thread.Snapshot(), [Cont(0)])
      ensures step < go < |thread.tracer.log| && thread.tracer.log[go] == Cont(0)
      ensures ReleasedAs(thread.Snapshot(), step, atStep) && ReleasedAs(thread.Snapshot(), go, atGo)
      ensures atGo.regs == old(RegsOf(thread))
      ensures Mapped(atGo.mem, addr) && Load(atGo.mem, addr) == [INT3_BYTE] + ToOctets(backup)[1..]
      ensures step in thread.tracer.stepped && thread.tracer.stepped[step] == old(thread.tracer.stepped[step])
    {
      hide Exec, RunOk, Kept, Added, ToOctets, Eventual, ReleasedAs, Direct;
      ghost var s := thread.Snapshot();
      Meanwhile(thread);
      reported := thread.tracer.status == Reported;
      StaysPatched(thread, s);
      KeptReleased(s, thread.Snapshot(), step, atStep, thread.reserved);
      KeptGrows(s, thread.Snapshot(), thread.reserved);
      ghost var s1 := thread.Snapshot();
      go, atGo := ResumePatched(thread, step, atStep);
      AddedBeside(s, s1, thread.Snapshot(), [Cont(0)]);
    }

    /** resume, at the end of resumeAndSet. */
    method ResumePatched(thread: SpiedThread, ghost step: nat, ghost atStep: Sight)
        returns (ghost go: nat, ghost atGo: Sight)
      requires Halted(thread) && Patched(thread)
      requires step < thread.tracer.executed && ReleasedAs(thread.Snapshot(), step, atStep)
      modifies thread`state, thread`regSync, thread`run, thread.tracer`commands, thread.tracer`issued, thread.tracer`log
      ensures thread.Valid() && thread.state == CONTINUED
      ensures old(thread.tracer.log) <= thread.tracer.log
      ensures step < go < |thread.tracer.log| && thread.tracer.log[go] == Cont(0)
      ensures Added(old(thread.Snapshot()), thread.Snapshot(), [Cont(0)])
      ensures ReleasedAs(thread.Snapshot(), step, atStep) && ReleasedAs(thread.Snapshot(), go, atGo)
      ensures atGo.regs == old(RegsOf(thread))
      ensures Mapped(atGo.mem, addr) && Load(atGo.mem, addr) == [INT3_BYTE] + ToOctets(backup)[1..]
    {
      hide Exec, RunOk, Kept, Added, ToOctets, Eventual, ReleasedAs, Direct;
      ghost var s := thread.Snapshot();
      var ticket;
      ticket, atGo := thread.Resume(0);
      go := ticket;
      KeptReleased(s, thread.Snapshot(), step, atStep, thread.reserved);
      KeptGrows(s, thread.Snapshot(), thread.reserved);
    }

    ghost method StaysPatched(thread: SpiedThread, s: World)
      requires thread.Valid() && addr in thread.reserved && Kept(s, thread.Snapshot(), thread.reserved) && s.done <= |s.log|
      requires Mapped(Eventual(s), addr) && Load(Eventual(s), addr) == [INT3_BYTE] + ToOctets(backup)[1..]
      ensures Patched(thread)
    {
      hide Kept, Eventual, ToOctets;
      KeptWord(s, thread.Snapshot(), addr, thread.reserved);
    }

    /** set, when the original word is back in memory; the trap may have been reported before. */
    method SetAgain(thread: SpiedThread, ghost step: nat, ghost atStep: Sight) returns (ok: bool)
      requires Halted(thread) && !isSet && Restored(thread) && thread.tracer.status == Trapped && thread.isSigTrapExpected
      requires step < thread.tracer.executed && ReleasedAs(thread.Snapshot(), step, atStep)
      requires step in thread.tracer.stepped
      modifies this, thread, thread.tracer
      ensures ok && isSet && backup == old(backup) && Halted(thread) && Patched(thread)
      ensures Added(old(thread.Snapshot()), thread.Snapshot(), []) && old(thread.tracer.log) <= thread.tracer.log
      ensures RegsOf(thread) == old(RegsOf(thread))
      ensures thread.isSigTrapExpected == (thread.tracer.status == Trapped)
      ensures step < thread.tracer.executed && ReleasedAs(thread.Snapshot(), step, atStep)
      ensures step in thread.tracer.stepped && thread.tracer.stepped[step] == old(thread.tracer.stepped[step])
    {
      hide Exec, RunOk, Kept, Gos, ToOctets, Eventual, ReleasedAs, Direct;
      ghost var s1 := thread.Snapshot();
      Meanwhile(thread);
      ghost var s2 := thread.Snapshot();
      KeptReleased(s1, s2, step, atStep, thread.reserved);
      KeptGrows(s1, s2, thread.reserved);
      StaysRestored(s1, s2, addr, thread.reserved);
      ok := Set(thread);
      ToOctetsInjective(backup, old(backup));
      ghost var s3 := thread.Snapshot();
      OwnPoke(s2, s3, addr, [INT3_BYTE] + ToOctets(backup)[1..]);
      PastReleased(s2, s3, step, atStep);
      AddedQuiet(s2, s3, [PokeData(addr, [INT3_BYTE] + ToOctets(backup)[1..])]);
      AddedBeside(s1, s2, s3, []);
      assert Queue(s3) == Queue(s2) + [PokeData(addr, [INT3_BYTE] + ToOctets(backup)[1..])];
    }

    /** BreakPoint::resumeAndUnset. */
    method ResumeAndUnset(thread: SpiedThread) returns (ok: bool, ghost go: nat, ghost atGo: Sight)
      requires HitBy(thread)
      modifies this`isSet, thread, thread.tracer
      ensures thread.Valid() && ok && !isSet && thread.state == CONTINUED
      ensures go < |thread.tracer.log| && thread.tracer.log[go] == Cont(0) && ReleasedAs(thread.Snapshot(), go, atGo)
      ensures Added(old(thread.Snapshot()), thread.Snapshot(), [Cont(0)])
      ensures atGo.regs == old(thread.DirectFile()).regs.(rip := addr)
      ensures Mapped(atGo.mem, addr) && Load(atGo.mem, addr) == ToOctets(backup)
    {
      hide Exec, RunOk, Kept, Added, ToOctets, Eventual, ReleasedAs, Rested, StaysPut, Direct;
      StepBack(thread);
      ghost var s := thread.Snapshot();
      thread.Interleave();
      RestedIsKept(s, thread.Snapshot(), thread.reserved);
      RestedSettled(s, thread.Snapshot(), thread.reserved);
      KeptWord(s, thread.Snapshot(), addr, thread.reserved);
      RestedAddsNothing(s, thread.Snapshot(), thread.reserved);
      AddedBeside(old(thread.Snapshot()), s, thread.Snapshot(), []);
      ghost var s1 := thread.Snapshot();
      var ticket;
      ticket, atGo := thread.Resume(0);
      AddedBeside(old(thread.Snapshot()), s1, thread.Snapshot(), [Cont(0)]);
      go := ticket;
      ok := true;
    }
  }
}
