/**
 Hardware watchpoints: the fields of DR7 (section 17.2.4 of the Intel SDM, volume 3B) that
 WatchPoint::set and WatchPoint::unset edit with 32-bit signed arithmetic.
 */
module WatchPoints {
  import opened Options
  import opened Words

  datatype Trigger = EXECUTION | WRITE | READ_WRITE
  datatype Size = BYTES_1 | BYTES_2 | BYTES_4 | BYTES_8

  const MAX_NB: nat := 4

  function TriggerCode(t: Trigger): bv32 {
    match t case EXECUTION => 0 case WRITE => 1 case READ_WRITE => 3
  }

  function SizeCode(s: Size): bv32 {
    match s case BYTES_1 => 0 case BYTES_2 => 1 case BYTES_4 => 3 case BYTES_8 => 2
  }

  /** A 32-bit int converted to uint64_t. */
  function SignExtend(x: bv32): bv64 {
    ((x as bv64) ^ 0x8000_0000) - 0x8000_0000
  }

  function Low32(x: bv64): bv32 {
    (x & 0xFFFF_FFFF) as bv32
  }

  // 32-bit shifts by the amounts that belong to watchpoint `i`.

  function ShiftEnable(x: bv32, i: nat): bv32
    requires i < MAX_NB
  {
    if i == 0 then x else if i == 1 then x << 2 else if i == 2 then x << 4 else x << 6
  }

  function ShiftTrigger(x: bv32, i: nat): bv32
    requires i < MAX_NB
  {
    if i == 0 then x << 16 else if i == 1 then x << 20 else if i == 2 then x << 24 else x << 28
  }

  function ShiftSize(x: bv32, i: nat): bv32
    requires i < MAX_NB
  {
    if i == 0 then x << 18 else if i == 1 then x << 22 else if i == 2 then x << 26 else x << 30
  }

  /** ~((0b11 << (i * 2)) | (0b1111 << (i * 4 + 16))), as an int. */
  function ResetMask(i: nat): bv32
    requires i < MAX_NB
  {
    !(ShiftEnable(3, i) | ShiftTrigger(15, i))
  }

  /** One &= and three |= of ints on a uint64_t. */
  function Edit64(x: bv64, mask: bv32, a: bv32, b: bv32, c: bv32): bv64 {
    (((x & SignExtend(mask)) | SignExtend(a)) | SignExtend(b)) | SignExtend(c)
  }

  function Edit32(x: bv32, mask: bv32, a: bv32, b: bv32, c: bv32): bv32 {
    (((x & mask) | a) | b) | c
  }

  /** dr7 as WatchPoint::set leaves it. */
  function SetWord(dr7: bv64, i: nat, trigger: bv32, size: bv32): bv64
    requires i < MAX_NB
  {
    Edit64(dr7, ResetMask(i), ShiftEnable(3, i), ShiftTrigger(trigger, i), ShiftSize(size, i))
  }

  /** ~(0b11 << (i * 2)), as an int. */
  function DisableMask(i: nat): bv32
    requires i < MAX_NB
  {
    !ShiftEnable(3, i)
  }

  /** dr7 as WatchPoint::unset leaves it. */
  function UnsetWord(dr7: bv64, i: nat): bv64
    requires i < MAX_NB
  {
    dr7 & SignExtend(DisableMask(i))
  }

  /** The same edit on 32 bits. */
  function SetLow(d: bv32, i: nat, trigger: bv32, size: bv32): bv32
    requires i < MAX_NB
  {
    Edit32(d, ResetMask(i), ShiftEnable(3, i), ShiftTrigger(trigger, i), ShiftSize(size, i))
  }

  lemma LowEdit(x: bv64, mask: bv32, a: bv32, b: bv32, c: bv32)
    ensures Low32(Edit64(x, mask, a, b, c)) == Edit32(Low32(x), mask, a, b, c)
  {
  }

  /** Sign extension is invisible in the low half. */
  lemma {:induction false} SetLowIsLow(dr7: bv64, i: nat, trigger: bv32, size: bv32)
    requires i < MAX_NB
    ensures Low32(SetWord(dr7, i, trigger, size)) == SetLow(Low32(dr7), i, trigger, size)
  {
    hide Low32, Edit64, Edit32, ResetMask, ShiftEnable, ShiftTrigger, ShiftSize;
    LowEdit(dr7, ResetMask(i), ShiftEnable(3, i), ShiftTrigger(trigger, i), ShiftSize(size, i));
  }

  // ---------------------------------------------------------------- reading DR7

  /** L and G enable bits of breakpoint `i`. */
  function EnableField(dr7: bv32, i: nat): bv32
    requires i < MAX_NB
  {
    (if i == 0 then dr7 else if i == 1 then dr7 >> 2 else if i == 2 then dr7 >> 4 else dr7 >> 6) & 3
  }

  /** R/W field of breakpoint `i`. */
  function TriggerField(dr7: bv32, i: nat): bv32
    requires i < MAX_NB
  {
    (if i == 0 then dr7 >> 16 else if i == 1 then dr7 >> 20 else if i == 2 then dr7 >> 24 else dr7 >> 28) & 3
  }

  /** LEN field of breakpoint `i`. */
  function SizeField(dr7: bv32, i: nat): bv32
    requires i < MAX_NB
  {
    (if i == 0 then dr7 >> 18 else if i == 1 then dr7 >> 22 else if i == 2 then dr7 >> 26 else dr7 >> 30) & 3
  }

  /** What a breakpoint catches. */
  datatype Access = INSTRUCTIONS | WRITES | PORTS | READS_AND_WRITES

  /** The R/W field as the processor reads it. */
  function AccessOf(rw: bv32): Access {
    if rw == 0 then INSTRUCTIONS else if rw == 1 then WRITES else if rw == 2 then PORTS else READS_AND_WRITES
  }

  /** The LEN field as the processor reads it: how many bytes are watched. */
  function BytesOf(len: bv32): nat {
    if len == 0 then 1 else if len == 1 then 2 else if len == 2 then 8 else 4
  }

  /** What the caller of set asks for. */
  function Wanted(t: Trigger): Access {
    match t case EXECUTION => INSTRUCTIONS case WRITE => WRITES case READ_WRITE => READS_AND_WRITES
  }

  function WantedBytes(s: Size): nat {
    match s case BYTES_1 => 1 case BYTES_2 => 2 case BYTES_4 => 4 case BYTES_8 => 8
  }

  /** The codes mean what they are called. */
  lemma CodesMean(t: Trigger, s: Size)
    ensures AccessOf(TriggerCode(t)) == Wanted(t) && BytesOf(SizeCode(s)) == WantedBytes(s)
  {
  }

  /** Bits 8 to 15: exact-match, general-detect and reserved bits. */
  function MiddleBits(dr7: bv32): bv32 {
    dr7 & 0xFF00
  }

  /** The bits of DR7 that belong to breakpoint `i`, in its low half. */
  function OwnBits(i: nat): bv32
    requires i < MAX_NB
  {
    if i == 0 then 0x000F_0003 else if i == 1 then 0x00F0_000C else if i == 2 then 0x0F00_0030 else 0xF000_00C0
  }

  /** `d` and `d'` differ at most in the bits that belong to breakpoint `i`. */
  predicate AgreeOff(d: bv32, d': bv32, i: nat)
    requires i < MAX_NB
  {
    d & !OwnBits(i) == d' & !OwnBits(i)
  }

  predicate AgreeOn(d: bv32, d': bv32, bits: bv32) {
    d & bits == d' & bits
  }

  /** Setting leaves all other bits of the low half alone. */
  lemma {:induction false} SetStaysWithinOwnBits(dr7: bv64, i: nat, trigger: bv32, size: bv32)
    requires i < MAX_NB && trigger <= 3 && size <= 3
    ensures AgreeOff(Low32(dr7), Low32(SetWord(dr7, i, trigger, size)), i)
  {
    hide SetWord, Low32, OwnBits, AgreeOff, SetLow;
    SetLowIsLow(dr7, i, trigger, size);
    SetLowStays(Low32(dr7), i, trigger, size);
  }

  lemma {:induction false} SetLowStays(d: bv32, i: nat, trigger: bv32, size: bv32)
    requires i < MAX_NB && trigger <= 3 && size <= 3
    ensures AgreeOff(d, SetLow(d, i, trigger, size), i)
  {
    hide SetLow, AgreeOff;
    if i == 0 {
      SetLowStays0(d, trigger, size);
    } else if i == 1 {
      SetLowStays1(d, trigger, size);
    } else if i == 2 {
      SetLowStays2(d, trigger, size);
    } else {
      SetLowStays3(d, trigger, size);
    }
  }

  lemma SetLowStays0(d: bv32, trigger: bv32, size: bv32)
    requires trigger <= 3 && size <= 3
    ensures AgreeOff(d, SetLow(d, 0, trigger, size), 0)
  {
  }

  lemma SetLowStays1(d: bv32, trigger: bv32, size: bv32)
    requires trigger <= 3 && size <= 3
    ensures AgreeOff(d, SetLow(d, 1, trigger, size), 1)
  {
  }

  lemma SetLowStays2(d: bv32, trigger: bv32, size: bv32)
    requires trigger <= 3 && size <= 3
    ensures AgreeOff(d, SetLow(d, 2, trigger, size), 2)
  {
  }

  lemma SetLowStays3(d: bv32, trigger: bv32, size: bv32)
    requires trigger <= 3 && size <= 3
    ensures AgreeOff(d, SetLow(d, 3, trigger, size), 3)
  {
  }

  lemma UnsetStaysWithinOwnBits(dr7: bv64, i: nat)
    requires i < MAX_NB
    ensures AgreeOff(Low32(dr7), Low32(UnsetWord(dr7, i)), i)
  {
  }

  /** Equal bits outside breakpoint `i` mean equal fields of the others. */
  lemma {:induction false} FieldsOutsideOwnBits(d: bv32, d': bv32, i: nat, j: nat)
    requires i < MAX_NB && j < MAX_NB && i != j && AgreeOff(d, d', i)
    ensures EnableField(d', j) == EnableField(d, j) && TriggerField(d', j) == TriggerField(d, j)
    ensures SizeField(d', j) == SizeField(d, j) && MiddleBits(d') == MiddleBits(d)
  {
    hide EnableField, TriggerField, SizeField, MiddleBits, OwnBits, AgreeOff, AgreeOn;
    AgreeOnOthers(d, d', i, j);
    FieldsFromOwnBits(d, d', j);
    MiddleFromBits(d, d', i);
  }

  lemma AgreeOnOthers(d: bv32, d': bv32, i: nat, j: nat)
    requires i < MAX_NB && j < MAX_NB && i != j && AgreeOff(d, d', i)
    ensures AgreeOn(d, d', OwnBits(j))
  {
  }

  lemma MiddleFromBits(d: bv32, d': bv32, i: nat)
    requires i < MAX_NB && AgreeOff(d, d', i)
    ensures MiddleBits(d') == MiddleBits(d)
  {
  }

  lemma FieldsFromOwnBits(d: bv32, d': bv32, j: nat)
    requires j < MAX_NB && AgreeOn(d, d', OwnBits(j))
    ensures EnableField(d', j) == EnableField(d, j) && TriggerField(d', j) == TriggerField(d, j)
    ensures SizeField(d', j) == SizeField(d, j)
  {
  }

  /** Setting writes the three fields of its own breakpoint, whatever was there. */
  lemma SetWritesOwnFields(dr7: bv64, i: nat, trigger: bv32, size: bv32)
    requires i < MAX_NB && trigger <= 3 && size <= 3
    ensures var d := Low32(SetWord(dr7, i, trigger, size));
            EnableField(d, i) == 3 && TriggerField(d, i) == trigger && SizeField(d, i) == size
  {
  }

  /** Unsetting clears the enable bits of its own breakpoint and keeps its other fields. */
  lemma UnsetClearsOwnEnable(dr7: bv64, i: nat)
    requires i < MAX_NB
    ensures var d, d' := Low32(dr7), Low32(UnsetWord(dr7, i));
            EnableField(d', i) == 0 && TriggerField(d', i) == TriggerField(d, i) && SizeField(d', i) == SizeField(d, i)
  {
    hide Low32, UnsetWord, DisableMask, EnableField, TriggerField, SizeField;
    UnsetLow(dr7, i);
    UnsetLowClears(Low32(dr7), i);
  }

  lemma UnsetLow(dr7: bv64, i: nat)
    requires i < MAX_NB
    ensures Low32(UnsetWord(dr7, i)) == Low32(dr7) & DisableMask(i)
  {
    hide DisableMask;
  }

  lemma UnsetLowClears(d: bv32, i: nat)
    requires i < MAX_NB
    ensures var d' := d & DisableMask(i);
            EnableField(d', i) == 0 && TriggerField(d', i) == TriggerField(d, i) && SizeField(d', i) == SizeField(d, i)
  {
  }

  // ---------------------------------------------------------------- runs of set and unset

  const NULL: Word64 := 0

  /** What a failed PTRACE_PEEKUSER returns, and a DR7 of all ones as well. */
  const FAILED: bv64 := 0xFFFF_FFFF_FFFF_FFFF

  /** DR0 to DR3, DR7, and the answers that requests have been given so far. */
  datatype Kernel = Kernel(dr: seq<Word64>, dr7: bv64, answers: seq<bv64>)

  datatype Request = PeekControl | PokeAddress(i: nat, addr: Word64) | PokeControl(value: bv64)

  /** The worker runs a request; ptrace refuses requests on a thread that is not stopped. */
  function Serve(k: Kernel, r: Request, stopped: bool): Kernel {
    match r
    case PeekControl => k.(answers := k.answers + [if stopped then k.dr7 else FAILED])
    case PokeAddress(i, addr) => if stopped && i < |k.dr| then k.(dr := k.dr[i := addr]) else k
    case PokeControl(value) => if stopped then k.(dr7 := value) else k
  }

  function ServeAll(k: Kernel, queue: seq<Request>, stopped: bool): Kernel
    decreases |queue|
  {
    if queue == [] then k else ServeAll(Serve(k, queue[0], stopped), queue[1..], stopped)
  }

  lemma {:induction false} ServeAllSnoc(k: Kernel, queue: seq<Request>, r: Request, stopped: bool)
    ensures ServeAll(k, queue + [r], stopped) == Serve(ServeAll(k, queue, stopped), r, stopped)
    decreases |queue|
  {
    if queue == [] {
      assert ServeAll(Serve(k, r, stopped), [], stopped) == Serve(k, r, stopped);
    } else {
      assert (queue + [r])[1..] == queue[1..] + [r];
      ServeAllSnoc(Serve(k, queue[0], stopped), queue[1..], r, stopped);
    }
  }

  /** Answers, once given, stay. */
  lemma {:induction false} AnswersStay(k: Kernel, queue: seq<Request>, stopped: bool)
    ensures k.answers <= ServeAll(k, queue, stopped).answers
    decreases |queue|
  {
    if queue != [] {
      AnswersStay(Serve(k, queue[0], stopped), queue[1..], stopped);
    }
  }

  /** The fields of a WatchPoint. */
  datatype Slot = Slot(addr: Word64, isSet: bool)

  /** The debug registers of a thread and its four watchpoints. */
  datatype Debug = Debug(dr: seq<Word64>, dr7: bv64, slots: seq<Slot>)

  datatype Op =
    | Set(i: nat, addr: Word64, trigger: Trigger, size: Size, stopped: bool)
    | Unset(i: nat, stopped: bool)

  /** Whether the operation finds out what DR7 is. */
  predicate Reads(dr7: bv64, stopped: bool) {
    stopped && dr7 != FAILED
  }

  /** What WatchPoint::set does to the debug registers and to its own watchpoint. */
  function SetRegisters(dr: seq<Word64>, dr7: bv64, op: Op): (seq<Word64>, bv64)
    requires op.Set? && op.i < MAX_NB
  {
    (if op.stopped && op.i < |dr| then dr[op.i := op.addr] else dr,
     if Reads(dr7, op.stopped) then SetWord(dr7, op.i, TriggerCode(op.trigger), SizeCode(op.size)) else dr7)
  }

  function Step(d: Debug, op: Op): (d': Debug)
    requires op.i < MAX_NB && |d.slots| == |d.dr| == MAX_NB
    ensures |d'.slots| == |d'.dr| == MAX_NB
  {
    match op
    case Set(i, addr, trigger, size, stopped) =>
      var (dr, dr7) := SetRegisters(d.dr, d.dr7, op);
      Debug(dr, dr7, d.slots[i := Slot(addr, d.slots[i].isSet || Reads(d.dr7, stopped))])
    case Unset(i, stopped) =>
      if Reads(d.dr7, stopped) then Debug(d.dr, UnsetWord(d.dr7, i), d.slots[i := d.slots[i].(isSet := false)])
      else d
  }

  predicate OpsOk(ops: seq<Op>) {
    forall k | 0 <= k < |ops| :: ops[k].i < MAX_NB
  }

  function Run(d: Debug, ops: seq<Op>): (d': Debug)
    requires OpsOk(ops) && |d.slots| == |d.dr| == MAX_NB
    ensures |d'.slots| == |d'.dr| == MAX_NB
    decreases |ops|
  {
    if ops == [] then d else Step(Run(d, ops[..|ops| - 1]), ops[|ops| - 1])
  }

  /** The last operation on watchpoint `i` that the thread was stopped for: of either kind, or a
      set only. */
  function LastOp(ops: seq<Op>, i: nat, setsOnly: bool): (r: Option<Op>)
    ensures r.Some? ==> r.value in ops && r.value.i == i && r.value.stopped && (setsOnly ==> r.value.Set?)
    decreases |ops|
  {
    if ops == [] then None
    else
      var op := ops[|ops| - 1];
      if op.i == i && op.stopped && (setsOnly ==> op.Set?) then Some(op) else LastOp(ops[..|ops| - 1], i, setsOnly)
  }

  /** The address that the last set of watchpoint `i` was given, whether or not it succeeded. */
  function LastAddress(ops: seq<Op>, i: nat): Option<Word64>
    decreases |ops|
  {
    if ops == [] then None
    else
      var op := ops[|ops| - 1];
      if op.Set? && op.i == i then Some(op.addr) else LastAddress(ops[..|ops| - 1], i)
  }

  /** A thread whose watchpoints were just created and that has no breakpoint enabled. Bits 8 to 15
      are not all ones (bit 12 is reserved and zero), so DR7 cannot be taken for an error. */
  predicate Fresh(d: Debug) {
    && |d.dr| == MAX_NB && d.slots == seq(MAX_NB, _ => Slot(NULL, false))
    && MiddleBits(Low32(d.dr7)) != 0xFF00
    && forall i: nat | i < MAX_NB :: EnableField(Low32(d.dr7), i) == 0
  }

  /** What watchpoint `i` is after the operations `ops`, and what the processor makes of its bits. */
  predicate Decodes(d0: Debug, d: Debug, ops: seq<Op>, i: nat)
    requires |d0.slots| == |d0.dr| == |d.slots| == |d.dr| == MAX_NB && i < MAX_NB
  {
    var low0, low := Low32(d0.dr7), Low32(d.dr7);
    var op, good := LastOp(ops, i, false), LastOp(ops, i, true);
    && (d.slots[i].isSet <==> op.Some? && op.value.Set?)
    && EnableField(low, i) == (if d.slots[i].isSet then 3 else 0)
    && (if good.Some? then AccessOf(TriggerField(low, i)) == Wanted(good.value.trigger)
        else TriggerField(low, i) == TriggerField(low0, i))
    && (if good.Some? then BytesOf(SizeField(low, i)) == WantedBytes(good.value.size)
        else SizeField(low, i) == SizeField(low0, i))
    && d.dr[i] == (if good.Some? then good.value.addr else d0.dr[i])
    && d.slots[i].addr == LastAddress(ops, i).GetOr(NULL)
  }

  lemma NotAllOnes(dr7: bv64)
    requires MiddleBits(Low32(dr7)) != 0xFF00
    ensures dr7 != FAILED
  {
    assert MiddleBits(Low32(FAILED)) == 0xFF00;
  }

  /** After any sequence of sets and unsets of the four watchpoints, each watchpoint's own bits of
      DR7 say what happened to it last, whatever happened to the others; DRi holds the address of
      its last successful set, and bits 8 to 15 have not changed. */
  lemma {:induction false} RegistersDecodeAfterAnyRun(d0: Debug, ops: seq<Op>)
    requires Fresh(d0) && OpsOk(ops)
    ensures var d := Run(d0, ops);
            && MiddleBits(Low32(d.dr7)) == MiddleBits(Low32(d0.dr7))
            && forall i: nat | i < MAX_NB :: Decodes(d0, d, ops, i)
    decreases |ops|
  {
    hide Decodes, MiddleBits, Low32, Step;
    if ops == [] {
      NothingDoneYet(d0);
    } else {
      var before, op := ops[..|ops| - 1], ops[|ops| - 1];
      assert ops == before + [op];
      RegistersDecodeAfterAnyRun(d0, before);
      var d := Run(d0, before);
      NotAllOnes(d.dr7);
      forall i: nat | i < MAX_NB
        ensures Decodes(d0, Run(d0, ops), ops, i)
      {
        if op.i == i {
          StepDecodesOwn(d0, d, before, op);
        } else {
          StepDecodesOther(d0, d, before, op, i);
        }
      }
      StepKeepsMiddle(d, op);
    }
  }

  lemma NothingDoneYet(d: Debug)
    requires Fresh(d)
    ensures forall i: nat | i < MAX_NB :: Decodes(d, d, [], i)
  {
  }

  lemma {:induction false} StepKeepsMiddle(d: Debug, op: Op)
    requires op.i < MAX_NB && |d.slots| == |d.dr| == MAX_NB
    ensures MiddleBits(Low32(Step(d, op).dr7)) == MiddleBits(Low32(d.dr7))
    ensures AgreeOff(Low32(d.dr7), Low32(Step(d, op).dr7), op.i)
  {
    hide MiddleBits, Low32, SetWord, UnsetWord, AgreeOff;
    var low, low' := Low32(d.dr7), Low32(Step(d, op).dr7);
    AgreeOffRefl(low, op.i);
    match op {
      case Set(i, _, trigger, size, stopped) =>
        SetStaysWithinOwnBits(d.dr7, i, TriggerCode(trigger), SizeCode(size));
      case Unset(i, _) =>
        UnsetStaysWithinOwnBits(d.dr7, i);
    }
    MiddleFromBits(low, low', op.i);
  }

  lemma AgreeOffRefl(d: bv32, i: nat)
    requires i < MAX_NB
    ensures AgreeOff(d, d, i)
  {
  }

  lemma {:induction false} StepDecodesOther(d0: Debug, d: Debug, before: seq<Op>, op: Op, i: nat)
    requires |d0.slots| == |d0.dr| == |d.slots| == |d.dr| == MAX_NB && i < MAX_NB && op.i < MAX_NB && op.i != i
    requires Decodes(d0, d, before, i)
    ensures Decodes(d0, Step(d, op), before + [op], i)
  {
    hide MiddleBits, Low32, SetWord, UnsetWord, AgreeOff, EnableField, TriggerField, SizeField, AccessOf, BytesOf;
    assert (before + [op])[..|before|] == before;
    StepKeepsMiddle(d, op);
    FieldsOutsideOwnBits(Low32(d.dr7), Low32(Step(d, op).dr7), op.i, i);
  }

  lemma {:induction false} StepDecodesOwn(d0: Debug, d: Debug, before: seq<Op>, op: Op)
    requires |d0.slots| == |d0.dr| == |d.slots| == |d.dr| == MAX_NB && op.i < MAX_NB && d.dr7 != FAILED
    requires Decodes(d0, d, before, op.i)
    ensures Decodes(d0, Step(d, op), before + [op], op.i)
  {
    hide MiddleBits, Low32, SetWord, UnsetWord, AgreeOff, EnableField, TriggerField, SizeField, AccessOf, BytesOf;
    assert (before + [op])[..|before|] == before;
    match op {
      case Set(i, _, trigger, size, stopped) =>
        CodesFit(trigger, size);
        CodesMean(trigger, size);
        SetWritesOwnFields(d.dr7, i, TriggerCode(trigger), SizeCode(size));
      case Unset(i, _) =>
        UnsetClearsOwnEnable(d.dr7, i);
    }
  }

  lemma CodesFit(t: Trigger, s: Size)
    ensures TriggerCode(t) <= 3 && SizeCode(s) <= 3
  {
  }

  /** getAddr() and DRi differ after a set that failed because the thread was running: `_addr` is
      assigned before the result is looked at. They agree exactly when the last address asked for is
      the last one that took effect. */
  lemma AddressMatchesExactlyIf(d0: Debug, ops: seq<Op>, i: nat)
    requires Fresh(d0) && OpsOk(ops) && i < MAX_NB
    ensures var d, good := Run(d0, ops), LastOp(ops, i, true);
            d.slots[i].addr == d.dr[i] <==>
            LastAddress(ops, i).GetOr(NULL) == (if good.Some? then good.value.addr else d0.dr[i])
  {
    hide LastOp, LastAddress, EnableField, TriggerField, SizeField, MiddleBits, Low32, Step;
    RegistersDecodeAfterAnyRun(d0, ops);
    assert Decodes(d0, Run(d0, ops), ops, i);
  }

  // ---------------------------------------------------------------- the objects

  /** The debug registers of one thread and the requests queued for them. */
  class DebugRegisters {
    var stopped: bool
    var kernel: Kernel
    var queue: seq<Request>
    var issued: nat      // futures of PEEKUSER handed out

    constructor (stopped: bool, dr: seq<Word64>, dr7: bv64)
      ensures Valid() && this.stopped == stopped && Settled() == Kernel(dr, dr7, [])
    {
      this.stopped, this.kernel, this.queue, this.issued := stopped, Kernel(dr, dr7, []), [], 0;
    }

    /** The registers and answers once everything in the queue has been served. */
    ghost function Settled(): Kernel
      reads this
    {
      ServeAll(kernel, queue, stopped)
    }

    ghost predicate Valid()
      reads this
    {
      |Settled().answers| == issued
    }

    /** Tracer::commandPTrace: `future` is meaningful for a PEEKUSER. */
    method CommandPTrace(r: Request) returns (future: nat)
      requires Valid()
      modifies this`queue, this`issued
      ensures Valid() && Settled() == Serve(old(Settled()), r, stopped) && future == old(issued)
    {
      ServeAllSnoc(kernel, queue, r, stopped);
      future := issued;
      queue := queue + [r];
      if r.PeekControl? {
        issued := issued + 1;
      }
    }

    method RunFront()
      requires Valid() && queue != []
      modifies this`kernel, this`queue
      ensures Valid() && Settled() == old(Settled()) && queue == old(queue)[1..]
    {
      kernel, queue := Serve(kernel, queue[0], stopped), queue[1..];
    }

    /** The worker may get some way through the queue while the caller does something else. */
    method Interleave()
      requires Valid()
      modifies this`kernel, this`queue
      ensures Valid() && Settled() == old(Settled())
    {
      var more: nat := *;
      while more > 0 && queue != []
        invariant Valid() && Settled() == old(Settled())
      {
        RunFront();
        more := more - 1;
      }
    }

    /** future.get(): only what was queued before the request is sure to have been served. */
    method Get(future: nat) returns (value: bv64)
      requires Valid() && future < issued
      modifies this`kernel, this`queue
      ensures Valid() && Settled() == old(Settled()) && value == Settled().answers[future]
    {
      Interleave();
      while |kernel.answers| <= future
        invariant Valid() && Settled() == old(Settled())
        decreases |queue|
      {
        RunFront();
      }
      AnswersStay(kernel, queue, stopped);
      value := kernel.answers[future];
    }
  }

  class WatchPoint {
    const registers: DebugRegisters
    const idx: nat
    var addr: Word64
    var isSet: bool

    constructor (registers: DebugRegisters, idx: nat)
      ensures this.registers == registers && this.idx == idx && addr == NULL && !isSet
    {
      this.registers, this.idx, this.addr, this.isSet := registers, idx, NULL, false;
    }

    /** This watchpoint as slot `idx` of the four, the others being `slots`. */
    ghost function View(slots: seq<Slot>): Debug
      requires idx < |slots|
      reads this, registers
    {
      Debug(registers.Settled().dr, registers.Settled().dr7, slots[idx := Slot(addr, isSet)])
    }

    /** WatchPoint::set. */
    method Set(addr: Word64, trigger: Trigger, size: Size, ghost slots: seq<Slot>) returns (success: bool)
      requires registers.Valid() && idx < MAX_NB == |slots| == |registers.Settled().dr|
      modifies this, registers`kernel, registers`queue, registers`issued
      ensures registers.Valid() && success == Reads(old(registers.Settled().dr7), registers.stopped)
      ensures View(slots) == Step(old(View(slots)), Op.Set(idx, addr, trigger, size, registers.stopped))
    {
      hide SetWord, ServeAll;
      var future := registers.CommandPTrace(PeekControl);
      registers.Interleave();
      var ignored := registers.CommandPTrace(PokeAddress(idx, addr));
      this.addr := addr;
      var dr7 := registers.Get(future);
      if dr7 == FAILED {
        return false;
      }
      dr7 := Edited(dr7, trigger, size);
      ignored := registers.CommandPTrace(PokeControl(dr7));
      this.addr := addr;
      isSet := true;
      return true;
    }

    /** The bits of DR7 in set. */
    method Edited(old7: bv64, trigger: Trigger, size: Size) returns (dr7: bv64)
      requires idx < MAX_NB
      ensures dr7 == SetWord(old7, idx, TriggerCode(trigger), SizeCode(size))
    {
      hide ShiftEnable, ShiftTrigger, ShiftSize, ResetMask, SignExtend;
      dr7 := old7;
      dr7 := dr7 & SignExtend(ResetMask(idx));
      dr7 := dr7 | SignExtend(ShiftEnable(3, idx));
      dr7 := dr7 | SignExtend(ShiftTrigger(TriggerCode(trigger), idx));
      dr7 := dr7 | SignExtend(ShiftSize(SizeCode(size), idx));
    }

    /** The bits of DR7 in unset. */
    method Disabled(old7: bv64) returns (dr7: bv64)
      requires idx < MAX_NB
      ensures dr7 == UnsetWord(old7, idx)
    {
      hide DisableMask, SignExtend;
      dr7 := old7;
      dr7 := dr7 & SignExtend(DisableMask(idx));
    }

    /** WatchPoint::unset. */
    method Unset(ghost slots: seq<Slot>) returns (success: bool)
      requires registers.Valid() && idx < MAX_NB == |slots| == |registers.Settled().dr|
      modifies this`isSet, registers`kernel, registers`queue, registers`issued
      ensures registers.Valid() && success == Reads(old(registers.Settled().dr7), registers.stopped)
      ensures View(slots) == Step(old(View(slots)), Op.Unset(idx, registers.stopped))
    {
      hide UnsetWord, ServeAll;
      var future := registers.CommandPTrace(PeekControl);
      var dr7 := registers.Get(future);
      if dr7 == FAILED {
        return false;
      }
      dr7 := Disabled(dr7);
      var ignored := registers.CommandPTrace(PokeControl(dr7));
      isSet := false;
      return true;
    }
  }
}
