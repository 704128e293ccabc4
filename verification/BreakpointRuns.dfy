/**
 What sequences of set and unset do to memory when each write has reached it before the next
 call: exactly the INT3s of the breakpoints that are set, and nothing left of the others.
 */
module BreakPointRuns {
  import opened Words
  import opened BreakPoints

  /** The fields of a BreakPoint. */
  datatype Point = Point(addr: Word64, backup: bv64, isSet: bool)

  datatype Op = Set(i: nat) | Unset(i: nat)

  datatype State = State(mem: Memory, points: seq<Point>)

  predicate SamePlaces(s: State, r: State) {
    && |r.mem| == |s.mem| && |r.points| == |s.points|
    && forall i | 0 <= i < |s.points| :: r.points[i].addr == s.points[i].addr
  }

  /** BreakPoint::set, with its write drained. */
  function DoSet(s: State, i: nat): (r: State)
    requires i < |s.points| && Mapped(s.mem, s.points[i].addr)
    ensures SamePlaces(s, r)
  {
    var p := s.points[i];
    if p.isSet then s
    else
      var backup := ToWord(Load(s.mem, p.addr));
      State(Poke(s.mem, p.addr, ToOctets(Patch(backup))), s.points[i := Point(p.addr, backup, true)])
  }

  /** BreakPoint::unset, with its write drained. */
  function DoUnset(s: State, i: nat): (r: State)
    requires i < |s.points|
    ensures SamePlaces(s, r)
  {
    var p := s.points[i];
    if !p.isSet then s
    else State(Poke(s.mem, p.addr, ToOctets(p.backup)), s.points[i := p.(isSet := false)])
  }

  /** Some breakpoint at `k` is set. */
  predicate Planted(points: seq<Point>, k: int) {
    exists i :: 0 <= i < |points| && points[i].isSet && points[i].addr == k
  }

  predicate AllMapped(mem: Memory, points: seq<Point>) {
    forall i | 0 <= i < |points| :: Mapped(mem, points[i].addr)
  }

  predicate EightApart(points: seq<Point>) {
    forall i, j | 0 <= i < |points| && 0 <= j < |points| && i != j ::
      points[i].addr + 8 <= points[j].addr || points[j].addr + 8 <= points[i].addr
  }

  /** Memory is `original` with INT3 exactly at the breakpoints that are set. */
  predicate Overlaid(original: Memory, s: State) {
    && |s.mem| == |original|
    && forall k | 0 <= k < |original| :: s.mem[k] == if Planted(s.points, k) then INT3_BYTE else original[k]
  }

  predicate BackupsOk(original: Memory, points: seq<Point>)
    requires AllMapped(original, points)
  {
    forall i | 0 <= i < |points| && points[i].isSet :: ToOctets(points[i].backup) == Load(original, points[i].addr)
  }

  predicate Good(original: Memory, s: State) {
    && AllMapped(original, s.points) && EightApart(s.points)
    && Overlaid(original, s) && BackupsOk(original, s.points)
  }

  lemma {:induction false} SetWritesInt3(s: State, i: nat)
    requires i < |s.points| && Mapped(s.mem, s.points[i].addr) && !s.points[i].isSet
    ensures var p, s' := s.points[i], DoSet(s, i);
            && s'.mem == s.mem[p.addr := INT3_BYTE]
            && ToOctets(s'.points[i].backup) == Load(s.mem, p.addr)
            && s'.points == s.points[i := s'.points[i]] && s'.points[i].isSet && s'.points[i].addr == p.addr
  {
    hide ToOctets, ToWord, Patch;
    var word := Load(s.mem, s.points[i].addr);
    OctetsRoundTrip(word);
    PatchedOctets(word);
  }

  lemma {:induction false} SetKeepsGood(original: Memory, s: State, i: nat)
    requires Good(original, s) && i < |s.points|
    ensures Good(original, DoSet(s, i))
  {
    hide ToOctets, ToWord, Patch;
    if !s.points[i].isSet {
      SetWritesInt3(s, i);
      var p, s' := s.points[i], DoSet(s, i);
      assert Load(s.mem, p.addr) == Load(original, p.addr) by {
        forall k | p.addr <= k < p.addr + 8
          ensures !Planted(s.points, k)
        {
          assert s.points[i].addr == p.addr;
        }
      }
      PlantedBySet(s.points, i, s'.points[i]);
    }
  }

  lemma PlantedBySet(points: seq<Point>, i: nat, p: Point)
    requires i < |points| && !points[i].isSet && p.isSet
    ensures forall k: int :: Planted(points[i := p], k) <==> Planted(points, k) || k == p.addr
  {
    forall k: int
      ensures Planted(points[i := p], k) <==> Planted(points, k) || k == p.addr
    {
      var points' := points[i := p];
      if Planted(points, k) {
        var j :| 0 <= j < |points| && points[j].isSet && points[j].addr == k;
        assert points'[j].isSet && points'[j].addr == k;
      }
      if k == p.addr {
        assert points'[i].isSet && points'[i].addr == k;
      }
      if Planted(points', k) && k != p.addr {
        var j :| 0 <= j < |points'| && points'[j].isSet && points'[j].addr == k;
        assert points[j].isSet && points[j].addr == k;
      }
    }
  }

  lemma UnsetKeepsGood(original: Memory, s: State, i: nat)
    requires Good(original, s) && i < |s.points|
    ensures Good(original, DoUnset(s, i))
  {
    hide ToOctets;
    var p, s' := s.points[i], DoUnset(s, i);
    if p.isSet {
      forall k | 0 <= k < |original|
        ensures s'.mem[k] == if Planted(s'.points, k) then INT3_BYTE else original[k]
      {
        UnplantedByUnset(s.points, i, k);
        if p.addr <= k < p.addr + 8 {
          assert s'.mem[k] == Load(original, p.addr)[k - p.addr];
        }
      }
    }
  }

  lemma UnplantedByUnset(points: seq<Point>, i: nat, k: int)
    requires i < |points| && points[i].isSet && EightApart(points)
    ensures Planted(points[i := points[i].(isSet := false)], k) <==> Planted(points, k) && k != points[i].addr
    ensures points[i].addr <= k < points[i].addr + 8 ==> (Planted(points, k) <==> k == points[i].addr)
  {
    var points' := points[i := points[i].(isSet := false)];
    if Planted(points, k) {
      var j :| 0 <= j < |points| && points[j].isSet && points[j].addr == k;
      assert j != i ==> points'[j].isSet && points'[j].addr == k;
    }
    if Planted(points', k) {
      var j :| 0 <= j < |points'| && points'[j].isSet && points'[j].addr == k;
      assert points[j].isSet && points[j].addr == k;
    }
    assert points[i].isSet && points[i].addr == points[i].addr;
  }

  predicate OpOk(s: State, op: Op) {
    op.i < |s.points| && Mapped(s.mem, s.points[op.i].addr)
  }

  function Do(s: State, op: Op): State
    requires OpOk(s, op)
  {
    if op.Set? then DoSet(s, op.i) else DoUnset(s, op.i)
  }

  /** The last of `ops` that concerns breakpoint `i`, if any, is a set. */
  predicate LastIsSet(ops: seq<Op>, i: nat) {
    ops != [] && (if ops[|ops| - 1].i == i then ops[|ops| - 1].Set? else LastIsSet(ops[..|ops| - 1], i))
  }

  function RunOps(s: State, ops: seq<Op>): (r: State)
    requires AllMapped(s.mem, s.points) && forall k | 0 <= k < |ops| :: ops[k].i < |s.points|
    ensures |r.mem| == |s.mem| && |r.points| == |s.points|
    ensures forall i | 0 <= i < |s.points| :: r.points[i].addr == s.points[i].addr
  {
    if ops == [] then s else Do(RunOps(s, ops[..|ops| - 1]), ops[|ops| - 1])
  }

  /** After any run of set and unset over breakpoints at least eight bytes apart, memory is the
      original with INT3 exactly at the breakpoints whose last operation was a set. */
  lemma {:induction false} RunsLeaveExactlyTheSetOnes(s: State, ops: seq<Op>)
    requires AllMapped(s.mem, s.points) && EightApart(s.points)
    requires forall i | 0 <= i < |s.points| :: !s.points[i].isSet
    requires forall k | 0 <= k < |ops| :: ops[k].i < |s.points|
    ensures Good(s.mem, RunOps(s, ops))
    ensures forall i: nat | i < |s.points| :: RunOps(s, ops).points[i].isSet <==> LastIsSet(ops, i)
  {
    if ops != [] {
      hide ToOctets, ToWord, Patch, Load, Poke;
      var front := ops[..|ops| - 1];
      RunsLeaveExactlyTheSetOnes(s, front);
      var t, op := RunOps(s, front), ops[|ops| - 1];
      if op.Set? {
        SetKeepsGood(s.mem, t, op.i);
      } else {
        UnsetKeepsGood(s.mem, t, op.i);
      }
    }
  }

  // ---------------------------------------------------------------- overlapping words

  /** Set and unset in bracket order: set `i`, a session without it, unset it, and what follows. */
  datatype Session = Idle | Nest(i: nat, inner: Session, next: Session)

  predicate Uses(session: Session, i: nat) {
    session.Nest? && (session.i == i || Uses(session.inner, i) || Uses(session.next, i))
  }

  predicate LastInFirstOut(session: Session, n: nat) {
    session.Nest? ==>
      && session.i < n && !Uses(session.inner, session.i)
      && LastInFirstOut(session.inner, n) && LastInFirstOut(session.next, n)
  }

  function RunSession(s: State, session: Session): (r: State)
    requires AllMapped(s.mem, s.points) && LastInFirstOut(session, |s.points|)
    ensures SamePlaces(s, r)
    decreases session
  {
    match session
    case Idle => s
    case Nest(i, inner, next) =>
      var s1 := DoSet(s, i);
      var s2 := RunSession(s1, inner);
      var s3 := DoUnset(s2, i);
      assert SamePlaces(s, s3);
      RunSession(s3, next)
  }

  lemma UndoInt3(m: Memory, p: Word64)
    requires Mapped(m, p)
    ensures Poke(m[p := INT3_BYTE], p, Load(m, p)) == m
  {
  }

  /** Last set, first unset restores memory however the words overlap. */
  lemma {:induction false} LastInFirstOutRestores(s: State, session: Session)
    requires AllMapped(s.mem, s.points) && LastInFirstOut(session, |s.points|)
    requires forall i: nat | i < |s.points| && Uses(session, i) :: !s.points[i].isSet
    ensures RunSession(s, session).mem == s.mem
    ensures forall i: nat | i < |s.points| :: RunSession(s, session).points[i].isSet == s.points[i].isSet
    ensures forall i: nat | i < |s.points| && !Uses(session, i) :: RunSession(s, session).points[i] == s.points[i]
    decreases session
  {
    hide ToOctets, ToWord, Patch, Poke, DoSet;
    if session.Nest? {
      var i := session.i;
      SetWritesInt3(s, i);
      var s1 := DoSet(s, i);
      LastInFirstOutRestores(s1, session.inner);
      var s2 := RunSession(s1, session.inner);
      var s3 := DoUnset(s2, i);
      UndoInt3(s.mem, s.points[i].addr);
      LastInFirstOutRestores(s3, session.next);
    }
  }

  /** Out of that order it may not: of two breakpoints at `p` and `q`, setting `p` then `q` and
      unsetting `p` then `q` restores memory exactly if the word at `q` does not take in the INT3
      at `p`, or the byte there was an INT3 all along. */
  lemma {:induction false} OutOfOrderRestoresExactlyIf(mem: Memory, p: Word64, q: Word64)
    requires Mapped(mem, p) && Mapped(mem, q)
    ensures var s := State(mem, [Point(p, 0, false), Point(q, 0, false)]);
            DoUnset(DoUnset(DoSet(DoSet(s, 0), 1), 0), 1).mem == mem
            <==> !(q <= p < q + 8) || mem[p] == INT3_BYTE
  {
    hide ToOctets, ToWord, Patch, Poke;
    var s := State(mem, [Point(p, 0, false), Point(q, 0, false)]);
    var s1 := DoSet(s, 0);
    SetWritesInt3(s, 0);
    SetWritesInt3(s1, 1);
    CrossedWrites(mem, p, q);
  }

  lemma CrossedWrites(mem: Memory, p: Word64, q: Word64)
    requires Mapped(mem, p) && Mapped(mem, q)
    ensures var m1 := mem[p := INT3_BYTE];
            Poke(Poke(m1[q := INT3_BYTE], p, Load(mem, p)), q, Load(m1, q)) == mem
            <==> !(q <= p < q + 8) || mem[p] == INT3_BYTE
  {
    var m1 := mem[p := INT3_BYTE];
    var m4 := Poke(Poke(m1[q := INT3_BYTE], p, Load(mem, p)), q, Load(m1, q));
    forall k | 0 <= k < |mem|
      ensures m4[k] == if q <= k < q + 8 then m1[k] else mem[k]
    {
      PokedByte(Poke(m1[q := INT3_BYTE], p, Load(mem, p)), q, Load(m1, q), k);
      PokedByte(m1[q := INT3_BYTE], p, Load(mem, p), k);
    }
    assert m4 == mem <==> forall k | q <= k < q + 8 :: m1[k] == mem[k];
  }
}
