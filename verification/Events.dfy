/** What SpiedThread::handleEvent decides about an event of its thread. */
module Events {
  import opened Options

  const SIGTRAP: nat := 5
  const SIGSEGV: nat := 11
  const SIGSTOP: nat := 19
  const PTRACE_EVENT_CLONE: nat := 3
  const MAX_WATCHPOINTS: nat := 4

  /** What waitpid reports. `ptraceEvent` is looked at only for a SIGTRAP. */
  datatype ThreadEvent =
    | Stopped(signal: nat, ptraceEvent: nat)
    | Continued
    | Exited
    | Terminated(signal: nat)
    | Undetermined

  /** dr6 & (1 << i) */
  predicate Flagged(dr6: bv64, i: nat)
    requires i < MAX_WATCHPOINTS
  {
    if i == 0 then dr6 & 1 != 0
    else if i == 1 then dr6 & 2 != 0
    else if i == 2 then dr6 & 4 != 0
    else dr6 & 8 != 0
  }

  /** The lowest debug-status bit of DR6, from `i` on, that is set. */
  function Triggered(dr6: bv64, i: nat): (r: Option<nat>)
    requires i <= MAX_WATCHPOINTS
    ensures r.Some? ==> i <= r.value < MAX_WATCHPOINTS && Flagged(dr6, r.value)
    ensures forall j: nat | i <= j < MAX_WATCHPOINTS && (r.None? || j < r.value) :: !Flagged(dr6, j)
    decreases MAX_WATCHPOINTS - i
  {
    if i == MAX_WATCHPOINTS then None
    else if Flagged(dr6, i) then Some(i)
    else Triggered(dr6, i + 1)
  }

  /** `handled` is what handleEvent returns, `hit` the watchpoint whose callback it queues, and
      `expected` what becomes of _isSigTrapExpected. */
  datatype Outcome = Outcome(handled: bool, hit: Option<nat>, expected: bool)

  function HandleEvent(e: ThreadEvent, expected: bool, dr6: bv64): Outcome {
    match e
    case Stopped(signal, ptraceEvent) =>
      if signal == SIGTRAP then
        var hit := Triggered(dr6, 0);
        Outcome(expected || ptraceEvent == PTRACE_EVENT_CLONE || hit.Some?, hit, false)
      else Outcome(signal != SIGSEGV && signal != SIGSTOP, None, expected)
    case Undetermined => Outcome(false, None, expected)
    case _ => Outcome(true, None, expected)
  }

  /** Bit `i` of DR6, by shifting: the flag of watchpoint `i`. */
  lemma FlaggedIsBit(dr6: bv64, i: nat)
    requires i < MAX_WATCHPOINTS
    ensures Flagged(dr6, i) <==> ShiftedRight(dr6, i) & 1 == 1
  {
  }

  function ShiftedRight(x: bv64, i: nat): bv64
    requires i < MAX_WATCHPOINTS
  {
    if i == 0 then x else if i == 1 then x >> 1 else if i == 2 then x >> 2 else x >> 3
  }

  /** ~(1 << i) */
  function Unflag(i: nat): bv64
    requires i < MAX_WATCHPOINTS
  {
    if i == 0 then !1 else if i == 1 then !2 else if i == 2 then !4 else !8
  }

  /** setDr6(dr6 & ~(1 << i)) */
  function Cleared(dr6: bv64, i: nat): bv64
    requires i < MAX_WATCHPOINTS
  {
    dr6 & Unflag(i)
  }

  /** What handleEvent leaves in DR6. */
  function Acknowledged(dr6: bv64, hit: Option<nat>): bv64
    requires hit.Some? ==> hit.value < MAX_WATCHPOINTS
  {
    if hit.Some? then Cleared(dr6, hit.value) else dr6
  }

  /** Acknowledging a hit clears the flag of that watchpoint and no other bit. */
  lemma AcknowledgedClearsOnlyTheHit(dr6: bv64, i: nat, j: nat)
    requires i < MAX_WATCHPOINTS && j < MAX_WATCHPOINTS
    ensures Flagged(Acknowledged(dr6, Some(i)), j) <==> i != j && Flagged(dr6, j)
    ensures HighBits(Acknowledged(dr6, Some(i))) == HighBits(dr6)
  {
    hide Flagged, Cleared, HighBits;
    if i == 0 {
      ClearsBit0(dr6);
    } else if i == 1 {
      ClearsBit1(dr6);
    } else if i == 2 {
      ClearsBit2(dr6);
    } else {
      ClearsBit3(dr6);
    }
    assert j == 0 || j == 1 || j == 2 || j == 3;
  }

  /** All bits but the four flags. */
  function HighBits(dr6: bv64): bv64 {
    dr6 & 0xFFFF_FFFF_FFFF_FFF0
  }

  lemma FlaggedBits(x: bv64)
    ensures (Flagged(x, 0) <==> x & 1 != 0) && (Flagged(x, 1) <==> x & 2 != 0)
    ensures (Flagged(x, 2) <==> x & 4 != 0) && (Flagged(x, 3) <==> x & 8 != 0)
  {
  }

  lemma UnflagIs()
    ensures Unflag(0) == !1 && Unflag(1) == !2 && Unflag(2) == !4 && Unflag(3) == !8
  {
  }

  lemma ClearedIs0(x: bv64)
    ensures Cleared(x, 0) == x & !1
  {
    hide Unflag;
    UnflagIs();
  }

  lemma ClearedIs1(x: bv64)
    ensures Cleared(x, 1) == x & !2
  {
    hide Unflag;
    UnflagIs();
  }

  lemma ClearedIs2(x: bv64)
    ensures Cleared(x, 2) == x & !4
  {
    hide Unflag;
    UnflagIs();
  }

  lemma ClearedIs3(x: bv64)
    ensures Cleared(x, 3) == x & !8
  {
    hide Unflag;
    UnflagIs();
  }

  lemma Mask0(x: bv64)
    ensures x & !1 & 1 == 0 && x & !1 & 2 == x & 2
    ensures x & !1 & 4 == x & 4 && x & !1 & 8 == x & 8
    ensures HighBits(x & !1) == HighBits(x)
  {
  }

  lemma ClearsBit0(x: bv64)
    ensures !Flagged(Cleared(x, 0), 0)
    ensures Flagged(Cleared(x, 0), 1) <==> Flagged(x, 1)
    ensures Flagged(Cleared(x, 0), 2) <==> Flagged(x, 2)
    ensures Flagged(Cleared(x, 0), 3) <==> Flagged(x, 3)
    ensures HighBits(Cleared(x, 0)) == HighBits(x)
  {
    hide Flagged, Cleared, HighBits;
    ClearedIs0(x);
    FlaggedBits(x);
    FlaggedBits(Cleared(x, 0));
    Mask0(x);
  }

  lemma Mask1(x: bv64)
    ensures x & !2 & 1 == x & 1 && x & !2 & 2 == 0
    ensures x & !2 & 4 == x & 4 && x & !2 & 8 == x & 8
    ensures HighBits(x & !2) == HighBits(x)
  {
  }

  lemma ClearsBit1(x: bv64)
    ensures Flagged(Cleared(x, 1), 0) <==> Flagged(x, 0)
    ensures !Flagged(Cleared(x, 1), 1)
    ensures Flagged(Cleared(x, 1), 2) <==> Flagged(x, 2)
    ensures Flagged(Cleared(x, 1), 3) <==> Flagged(x, 3)
    ensures HighBits(Cleared(x, 1)) == HighBits(x)
  {
    hide Flagged, Cleared, HighBits;
    ClearedIs1(x);
    FlaggedBits(x);
    FlaggedBits(Cleared(x, 1));
    Mask1(x);
  }

  lemma Mask2(x: bv64)
    ensures x & !4 & 1 == x & 1 && x & !4 & 2 == x & 2
    ensures x & !4 & 4 == 0 && x & !4 & 8 == x & 8
    ensures HighBits(x & !4) == HighBits(x)
  {
  }

  lemma ClearsBit2(x: bv64)
    ensures Flagged(Cleared(x, 2), 0) <==> Flagged(x, 0)
    ensures Flagged(Cleared(x, 2), 1) <==> Flagged(x, 1)
    ensures !Flagged(Cleared(x, 2), 2)
    ensures Flagged(Cleared(x, 2), 3) <==> Flagged(x, 3)
    ensures HighBits(Cleared(x, 2)) == HighBits(x)
  {
    hide Flagged, Cleared, HighBits;
    ClearedIs2(x);
    FlaggedBits(x);
    FlaggedBits(Cleared(x, 2));
    Mask2(x);
  }

  lemma Mask3(x: bv64)
    ensures x & !8 & 1 == x & 1 && x & !8 & 2 == x & 2
    ensures x & !8 & 4 == x & 4 && x & !8 & 8 == 0
    ensures HighBits(x & !8) == HighBits(x)
  {
  }

  lemma ClearsBit3(x: bv64)
    ensures Flagged(Cleared(x, 3), 0) <==> Flagged(x, 0)
    ensures Flagged(Cleared(x, 3), 1) <==> Flagged(x, 1)
    ensures Flagged(Cleared(x, 3), 2) <==> Flagged(x, 2)
    ensures !Flagged(Cleared(x, 3), 3)
    ensures HighBits(Cleared(x, 3)) == HighBits(x)
  {
    hide Flagged, Cleared, HighBits;
    ClearedIs3(x);
    FlaggedBits(x);
    FlaggedBits(Cleared(x, 3));
    Mask3(x);
  }
}
