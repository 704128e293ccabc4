/**
 Runs of relink, unrelink and the destruction of destinations, over all modules that relink:
 what the GOT slots hold at every point of every run.
 */
module RelinkRuns {
  import opened Words
  import opened Relinkages

  /** A relinkage is known by the modules it leads from and to. */
  datatype Key = Key(source: string, destination: string)

  /** `links` are the live Relinkage objects: those in their source's out registry, and in their
      destination's in registry as long as that lives. `dead` are the destroyed destinations. */
  datatype System = System(got: Got, links: map<Key, Link>, dead: set<string>)

  /** What the ELF tables say, for each pair of modules: which slots the destination defines, and
      the addresses it gives them; and whether the source needs the destination at all. */
  type Tables = map<Key, seq<Reloc>>

  datatype Op =
    | Relink(key: Key)
    | Unrelink(key: Key)
    | Destroy(destination: string, order: seq<Key>)   // ~DynamicModule, in the order of its set

  /** No slot is defined twice, whether by one destination or by two. */
  ghost predicate Disjoint(tables: Tables) {
    && (forall k | k in tables :: Distinct(tables[k]))
    && (forall k, l, a | k in tables && l in tables && Patches(tables[k], a) && Patches(tables[l], a) :: k == l)
  }

  predicate TablesMapped(got: Got, tables: Tables) {
    forall k | k in tables :: SlotsMapped(got, tables[k])
  }

  predicate LinksMapped(s: System) {
    forall k | k in s.links :: SlotsMapped(s.got, s.links[k].relocs)
  }

  /** The destructor of a Relinkage, on the GOT. */
  function Dispose(s: System, k: Key): (r: System)
    requires LinksMapped(s)
    ensures LinksMapped(r) && r.got.Keys == s.got.Keys
  {
    if k in s.links then System(Invalidate(s.got, s.links[k], true).0, s.links - {k}, s.dead) else s
  }

  /** DynamicModule::relink, for a destination that the source needs. */
  function DoRelink(s: System, tables: Tables, k: Key): (r: System)
    requires LinksMapped(s) && TablesMapped(s.got, tables)
    ensures LinksMapped(r) && r.got.Keys == s.got.Keys
  {
    if k in tables then
      var s1 := Dispose(s, k);
      var (got, link) := Construct(s1.got, tables[k], true);
      System(got, s1.links[k := link], s1.dead)
    else s
  }

  /** One turn of the loop in ~DynamicModule. */
  function InvalidateOne(s: System, k: Key): (r: System)
    requires LinksMapped(s)
    ensures LinksMapped(r) && r.got.Keys == s.got.Keys
  {
    if k in s.links then
      var (got, link) := Invalidate(s.got, s.links[k], true);
      s.(got := got, links := s.links[k := link])
    else s
  }

  function InvalidateAll(s: System, order: seq<Key>): (r: System)
    requires LinksMapped(s)
    ensures LinksMapped(r) && r.got.Keys == s.got.Keys
  {
    if order == [] then s else InvalidateOne(InvalidateAll(s, order[..|order| - 1]), order[|order| - 1])
  }

  /** The calls that stay within the lifetime of the objects: a relinkage is not touched once its
      destination is gone, and the destructor visits the destination's in registry. */
  predicate Allowed(s: System, op: Op) {
    match op
    case Relink(k) => k.destination !in s.dead
    case Unrelink(k) => k.destination !in s.dead
    case Destroy(d, order) =>
      && d !in s.dead
      && (forall k | k in order :: k in s.links && k.destination == d)
      && (forall k | k in s.links && k.destination == d :: k in order)
  }

  function Do(s: System, tables: Tables, op: Op): (r: System)
    requires LinksMapped(s) && TablesMapped(s.got, tables)
    ensures LinksMapped(r) && r.got.Keys == s.got.Keys
  {
    match op
    case Relink(k) => DoRelink(s, tables, k)
    case Unrelink(k) => Dispose(s, k)
    case Destroy(d, order) => InvalidateAll(s, order).(dead := s.dead + {d})
  }

  // ---------------------------------------------------------------- the invariant

  /** The link is in force and its slots were actually written. */
  predicate InForce(s: System, tables: Tables, k: Key) {
    k in s.links && k in tables && s.links[k].valid && Writes(tables[k])
  }

  /** The slots of `k` hold the destination's addresses. */
  predicate Holds(got: Got, relocs: seq<Reloc>)
    requires SlotsMapped(got, relocs)
  {
    forall i | 0 <= i < |relocs| :: got[relocs[i].slot] == relocs[i].saved
  }

  predicate HoldsOriginal(original: Got, got: Got, relocs: seq<Reloc>)
    requires SlotsMapped(got, relocs) && SlotsMapped(original, relocs)
  {
    forall i | 0 <= i < |relocs| :: got[relocs[i].slot] == original[relocs[i].slot]
  }

  /** What is kept in the relinkage while it is in force. */
  predicate Saved(original: Got, relocs: seq<Reloc>, link: Link)
    requires SlotsMapped(original, relocs)
  {
    && |link.relocs| == |relocs|
    && forall i | 0 <= i < |relocs| :: link.relocs[i] == Reloc(relocs[i].slot, original[relocs[i].slot])
  }

  ghost predicate Inv(original: Got, tables: Tables, s: System) {
    && s.got.Keys == original.Keys && TablesMapped(original, tables) && LinksMapped(s)
    && (forall k | k in s.links :: k in tables)
    && (forall k | k in tables ::
          if InForce(s, tables, k) then Holds(s.got, tables[k]) && Saved(original, tables[k], s.links[k])
          else HoldsOriginal(original, s.got, tables[k]) && (k in s.links ==> s.links[k].relocs == tables[k]))
    && (forall a | a in original && !PatchedBySome(tables, a) :: s.got[a] == original[a])
    && (forall k | k in s.links && k.destination in s.dead :: !s.links[k].valid)
  }

  ghost predicate PatchedBySome(tables: Tables, a: Word64) {
    exists k :: k in tables && Patches(tables[k], a)
  }

  /** From `got` to `got'` only slots of `relocs` have changed. */
  ghost predicate ChangedOnly(got: Got, got': Got, relocs: seq<Reloc>) {
    got'.Keys == got.Keys && forall a | a in got && !Patches(relocs, a) :: got'[a] == got[a]
  }

  /** Writing the slots of one key leaves the invariant of the others alone. */
  lemma OthersKept(original: Got, tables: Tables, s: System, s': System, k: Key)
    requires Inv(original, tables, s) && Disjoint(tables) && k in tables
    requires ChangedOnly(s.got, s'.got, tables[k]) && s'.links - {k} == s.links - {k}
    ensures forall l | l in tables && l != k ::
              if InForce(s', tables, l) then Holds(s'.got, tables[l]) && Saved(original, tables[l], s'.links[l])
              else HoldsOriginal(original, s'.got, tables[l]) && (l in s'.links ==> s'.links[l].relocs == tables[l])
    ensures forall a | a in original && !PatchedBySome(tables, a) :: s'.got[a] == original[a]
  {
    forall l | l in tables && l != k
      ensures if InForce(s', tables, l) then Holds(s'.got, tables[l]) && Saved(original, tables[l], s'.links[l])
              else HoldsOriginal(original, s'.got, tables[l]) && (l in s'.links ==> s'.links[l].relocs == tables[l])
    {
      assert l in s.links <==> l in s.links - {k};
      assert l in s'.links <==> l in s'.links - {k};
      assert l in s.links ==> (s.links - {k})[l] == s.links[l];
      assert l in s'.links ==> (s'.links - {k})[l] == s'.links[l];
      forall i | 0 <= i < |tables[l]|
        ensures s'.got[tables[l][i].slot] == s.got[tables[l][i].slot]
      {
        assert Patches(tables[l], tables[l][i].slot);
        assert !Patches(tables[k], tables[l][i].slot);
      }
    }
  }

  // ---------------------------------------------------------------- single operations

  lemma ExchangeChangesOnly(got: Got, relocs: seq<Reloc>, g: Got, rs: seq<Reloc>, target: seq<Reloc>)
    requires SlotsMapped(got, relocs) && Exchanged(got, relocs, g, rs)
    requires |target| == |relocs| && forall i | 0 <= i < |relocs| :: target[i].slot == relocs[i].slot
    ensures ChangedOnly(got, g, target)
  {
    PatchesBySlots(relocs, target);
  }

  /** Invalidating a link puts the original values back, or finds them there. */
  lemma InvalidateEffect(original: Got, tables: Tables, s: System, k: Key)
    requires Inv(original, tables, s) && Disjoint(tables) && k in s.links
    ensures var (got, link) := Invalidate(s.got, s.links[k], true);
            && ChangedOnly(s.got, got, tables[k]) && HoldsOriginal(original, got, tables[k])
            && link == Link(false, tables[k])
  {
    var link, target := s.links[k], tables[k];
    if link.valid {
      if Writes(target) {
        assert InForce(s, tables, k);
        WritesLooksAtSlots(target, link.relocs);
        SwapExchanges(s.got, link.relocs);
        var (g, rs) := Swap(s.got, link.relocs, |link.relocs|);
        ExchangeChangesOnly(s.got, link.relocs, g, rs, target);
        assert rs == target;
      } else {
        assert !InForce(s, tables, k);
      }
    } else {
      assert !InForce(s, tables, k);
    }
  }

  /** Constructing a link over original values puts the destination's addresses in their place. */
  lemma ConstructEffect(original: Got, got: Got, relocs: seq<Reloc>)
    requires SlotsMapped(got, relocs) && SlotsMapped(original, relocs) && Distinct(relocs)
    requires HoldsOriginal(original, got, relocs)
    ensures var (g, link) := Construct(got, relocs, true);
            && ChangedOnly(got, g, relocs) && link.valid
            && (if Writes(relocs) then Holds(g, relocs) && Saved(original, relocs, link)
                else g == got && link.relocs == relocs)
  {
    if Writes(relocs) {
      SwapExchanges(got, relocs);
    }
  }

  lemma {:induction false} DisposeKeepsInv(original: Got, tables: Tables, s: System, k: Key)
    requires Inv(original, tables, s) && Disjoint(tables)
    ensures Inv(original, tables, Dispose(s, k))
    ensures k in tables ==> HoldsOriginal(original, Dispose(s, k).got, tables[k])
    ensures k !in Dispose(s, k).links
  {
    if k in s.links {
      InvalidateEffect(original, tables, s, k);
      OthersKept(original, tables, s, Dispose(s, k), k);
    } else if k in tables {
      assert !InForce(s, tables, k);
    }
  }

  lemma {:induction false} InvalidateOneKeepsInv(original: Got, tables: Tables, s: System, k: Key)
    requires Inv(original, tables, s) && Disjoint(tables)
    ensures Inv(original, tables, InvalidateOne(s, k))
    ensures var s' := InvalidateOne(s, k);
            && s'.links.Keys == s.links.Keys && s'.dead == s.dead
            && (k in s.links ==> !s'.links[k].valid)
            && (forall l | l in s.links && !s.links[l].valid :: !s'.links[l].valid)
  {
    if k in s.links {
      InvalidateEffect(original, tables, s, k);
      OthersKept(original, tables, s, InvalidateOne(s, k), k);
    }
  }

  lemma {:induction false} InvalidateAllKeepsInv(original: Got, tables: Tables, s: System, order: seq<Key>)
    requires Inv(original, tables, s) && Disjoint(tables)
    ensures Inv(original, tables, InvalidateAll(s, order))
    ensures var s' := InvalidateAll(s, order);
            && s'.links.Keys == s.links.Keys && s'.dead == s.dead
            && (forall k | k in order && k in s.links :: !s'.links[k].valid)
            && (forall l | l in s.links && !s.links[l].valid :: !s'.links[l].valid)
  {
    assert LinksMapped(s);
    hide Inv;
    if order != [] {
      var front := order[..|order| - 1];
      InvalidateAllKeepsInv(original, tables, s, front);
      InvalidateOneKeepsInv(original, tables, InvalidateAll(s, front), order[|order| - 1]);
    }
  }

  lemma {:induction false} RelinkKeepsInv(original: Got, tables: Tables, s: System, k: Key)
    requires Inv(original, tables, s) && Disjoint(tables) && TablesMapped(s.got, tables) && k.destination !in s.dead
    ensures Inv(original, tables, DoRelink(s, tables, k))
  {
    if k in tables {
      DisposeKeepsInv(original, tables, s, k);
      var s1 := Dispose(s, k);
      ConstructEffect(original, s1.got, tables[k]);
      OthersKept(original, tables, s1, DoRelink(s, tables, k), k);
    }
  }

  lemma DoKeepsInv(original: Got, tables: Tables, s: System, op: Op)
    requires Inv(original, tables, s) && Disjoint(tables) && TablesMapped(s.got, tables) && Allowed(s, op)
    ensures Inv(original, tables, Do(s, tables, op))
  {
    match op
    case Relink(k) => RelinkKeepsInv(original, tables, s, k);
    case Unrelink(k) => DisposeKeepsInv(original, tables, s, k);
    case Destroy(d, order) => InvalidateAllKeepsInv(original, tables, s, order);
  }

  // ---------------------------------------------------------------- runs

  function Run(s0: System, tables: Tables, ops: seq<Op>): (r: System)
    requires RunOk(s0, tables, ops)
    ensures LinksMapped(r) && r.got.Keys == s0.got.Keys
    decreases |ops|, 1
  {
    if ops == [] then s0 else Do(Run(s0, tables, ops[..|ops| - 1]), tables, ops[|ops| - 1])
  }

  predicate RunOk(s0: System, tables: Tables, ops: seq<Op>)
    decreases |ops|, 0
  {
    if ops == [] then LinksMapped(s0) && TablesMapped(s0.got, tables)
    else RunOk(s0, tables, ops[..|ops| - 1]) && TablesMapped(s0.got, tables)
         && Allowed(Run(s0, tables, ops[..|ops| - 1]), ops[|ops| - 1])
  }

  lemma {:induction false} RunKeepsInv(got: Got, tables: Tables, ops: seq<Op>)
    requires Disjoint(tables) && TablesMapped(got, tables) && RunOk(System(got, map[], {}), tables, ops)
    ensures Inv(got, tables, Run(System(got, map[], {}), tables, ops))
  {
    var s0 := System(got, map[], {});
    if ops != [] {
      RunKeepsInv(got, tables, ops[..|ops| - 1]);
      DoKeepsInv(got, tables, Run(s0, tables, ops[..|ops| - 1]), ops[|ops| - 1]);
    } else {
      assert forall k | k in tables :: !InForce(s0, tables, k);
    }
  }

  /** After any run, the slots of every relinkage in force hold the destination's addresses, every
      other word of memory holds what it held at first, and a relinkage whose destination has been
      destroyed is not in force. */
  lemma {:induction false} SlotsAfterAnyRun(got: Got, tables: Tables, ops: seq<Op>)
    requires Disjoint(tables) && TablesMapped(got, tables) && RunOk(System(got, map[], {}), tables, ops)
    ensures var s := Run(System(got, map[], {}), tables, ops);
            && (forall k, i | k in tables && InForce(s, tables, k) && 0 <= i < |tables[k]| ::
                  s.got[tables[k][i].slot] == tables[k][i].saved)
            && (forall a | a in got && (forall k | k in tables && InForce(s, tables, k) :: !Patches(tables[k], a)) ::
                  s.got[a] == got[a])
            && (forall k | k in tables && k.destination in s.dead :: !InForce(s, tables, k))
  {
    RunKeepsInv(got, tables, ops);
    var s := Run(System(got, map[], {}), tables, ops);
    forall a | a in got && (forall k | k in tables && InForce(s, tables, k) :: !Patches(tables[k], a))
      ensures s.got[a] == got[a]
    {
      if PatchedBySome(tables, a) {
        var k :| k in tables && Patches(tables[k], a);
        assert !InForce(s, tables, k);
      }
    }
  }

  // ---------------------------------------------------------------- the history, on its own

  /** The last relink or unrelink of `k` is a relink. */
  predicate LastIsRelink(ops: seq<Op>, k: Key)
    decreases |ops|
  {
    ops != [] &&
    var last := ops[|ops| - 1];
    if last == Relink(k) then true
    else if last == Unrelink(k) then false
    else LastIsRelink(ops[..|ops| - 1], k)
  }

  predicate Destroyed(ops: seq<Op>, destination: string) {
    exists n :: 0 <= n < |ops| && ops[n].Destroy? && ops[n].destination == destination
  }

  /** Some slot is followed by a higher one, so that writeRelocations writes. */
  predicate Rising(relocs: seq<Reloc>) {
    exists i, j :: 0 <= i < j < |relocs| && relocs[i].slot < relocs[j].slot
  }

  lemma DestroyedSnoc(ops: seq<Op>, op: Op, d: string)
    ensures Destroyed(ops + [op], d) <==> Destroyed(ops, d) || (op.Destroy? && op.destination == d)
  {
    var all := ops + [op];
    if Destroyed(ops, d) {
      var n :| 0 <= n < |ops| && ops[n].Destroy? && ops[n].destination == d;
      assert all[n] == ops[n];
    }
    if op.Destroy? && op.destination == d {
      assert all[|ops|] == op;
    }
  }

  /** InvalidateAll clears the flags of the links it visits, and no others. */
  lemma {:induction false} InvalidateAllLinks(s: System, order: seq<Key>)
    requires LinksMapped(s)
    ensures var s' := InvalidateAll(s, order);
            && s'.links.Keys == s.links.Keys && s'.dead == s.dead
            && forall k | k in s.links :: s'.links[k].valid == (s.links[k].valid && k !in order)
  {
    if order != [] {
      var front := order[..|order| - 1];
      InvalidateAllLinks(s, front);
      assert order == front + [order[|order| - 1]];
    }
  }

  /** Which links a run leaves, and which of them in force, is what its operations say. */
  lemma {:induction false} LinksAreHistory(got: Got, tables: Tables, ops: seq<Op>, k: Key)
    requires TablesMapped(got, tables) && RunOk(System(got, map[], {}), tables, ops)
    ensures var s := Run(System(got, map[], {}), tables, ops);
            && (k in s.links <==> k in tables && LastIsRelink(ops, k))
            && (k in s.links ==> (s.links[k].valid <==> !Destroyed(ops, k.destination)))
            && (k.destination in s.dead <==> Destroyed(ops, k.destination))
    decreases |ops|
  {
    if ops != [] {
      var s0 := System(got, map[], {});
      var front, op := ops[..|ops| - 1], ops[|ops| - 1];
      assert ops == front + [op];
      LinksAreHistory(got, tables, front, k);
      DestroyedSnoc(front, op, k.destination);
      StepIsHistory(Run(s0, tables, front), tables, op, k);
    }
  }

  lemma StepIsHistory(s: System, tables: Tables, op: Op, k: Key)
    requires LinksMapped(s) && TablesMapped(s.got, tables) && Allowed(s, op)
    ensures var s' := Do(s, tables, op);
            && (k in s'.links <==>
                  if op == Relink(k) && k in tables then true
                  else if op == Unrelink(k) then false
                  else k in s.links)
            && (k in s'.links ==>
                  (s'.links[k].valid <==>
                   (op == Relink(k) && k in tables)
                   || (k in s.links && s.links[k].valid && !(op.Destroy? && op.destination == k.destination))))
            && (k.destination in s'.dead <==>
                  k.destination in s.dead || (op.Destroy? && op.destination == k.destination))
  {
    match op
    case Relink(_) =>
    case Unrelink(_) =>
    case Destroy(d, order) => InvalidateAllLinks(s, order);
  }

  /** So what every word of memory holds after a run follows from the tables and the operations alone: the
      address that a destination gives for a slot, if the last operation on that pair of modules is a
      relink, the destination lives, and the relocations were written; and the original value otherwise. */
  lemma SlotsByHistory(got: Got, tables: Tables, ops: seq<Op>)
    requires Disjoint(tables) && TablesMapped(got, tables) && RunOk(System(got, map[], {}), tables, ops)
    ensures var end := Run(System(got, map[], {}), tables, ops).got;
            && (forall k, i | k in tables && 0 <= i < |tables[k]| ::
                  end[tables[k][i].slot] ==
                  if LastIsRelink(ops, k) && !Destroyed(ops, k.destination) && Rising(tables[k]) then tables[k][i].saved
                  else got[tables[k][i].slot])
            && (forall a | a in got && (forall k | k in tables :: !Patches(tables[k], a)) :: end[a] == got[a])
  {
    RunKeepsInv(got, tables, ops);
    var s := Run(System(got, map[], {}), tables, ops);
    forall k | k in tables
      ensures InForce(s, tables, k) <==> LastIsRelink(ops, k) && !Destroyed(ops, k.destination) && Rising(tables[k])
    {
      LinksAreHistory(got, tables, ops, k);
      WritesExactlyIfRising(tables[k]);
    }
  }

  /** Relinking and unrelinking are allowed in any order as long as nothing is destroyed. */
  lemma {:induction false} RelinksAreAllowed(got: Got, tables: Tables, ops: seq<Op>)
    requires TablesMapped(got, tables) && forall n | 0 <= n < |ops| :: !ops[n].Destroy?
    ensures RunOk(System(got, map[], {}), tables, ops) && Run(System(got, map[], {}), tables, ops).dead == {}
    decreases |ops|
  {
    if ops != [] {
      var front := ops[..|ops| - 1];
      assert forall n | 0 <= n < |front| :: front[n] == ops[n];
      RelinksAreAllowed(got, tables, front);
    }
  }

  /** Once a destination is destroyed, no slot that its relinkages patched still holds the address
      they put there, unless it held that address to begin with. */
  lemma {:induction false} DestroyedLeavesNoAddress(got: Got, tables: Tables, ops: seq<Op>, k: Key, i: nat)
    requires Disjoint(tables) && TablesMapped(got, tables) && RunOk(System(got, map[], {}), tables, ops)
    requires k in tables && i < |tables[k]|
    requires k.destination in Run(System(got, map[], {}), tables, ops).dead
    requires tables[k][i].saved != got[tables[k][i].slot]
    ensures Run(System(got, map[], {}), tables, ops).got[tables[k][i].slot] != tables[k][i].saved
  {
    RunKeepsInv(got, tables, ops);
    assert !InForce(Run(System(got, map[], {}), tables, ops), tables, k);
  }

  /** Relinking twice is relinking once. */
  lemma RelinkTwiceIsOnce(s: System, tables: Tables, k: Key)
    requires LinksMapped(s) && TablesMapped(s.got, tables) && (k in tables ==> Distinct(tables[k]))
    ensures DoRelink(DoRelink(s, tables, k), tables, k) == DoRelink(s, tables, k)
  {
    if k in tables {
      var s1 := Dispose(s, k);
      var s2 := DoRelink(s, tables, k);
      LifeRestores(s1.got, tables[k], [true]);
      assert InvalidateTimes(s2.got, s2.links[k], [true]) == Invalidate(s2.got, s2.links[k], true);
      assert Dispose(s2, k).links == s1.links;
    }
  }

  /** Unrelinking undoes relinking. */
  lemma UnrelinkUndoesRelink(s: System, tables: Tables, k: Key)
    requires LinksMapped(s) && TablesMapped(s.got, tables) && k !in s.links && (k in tables ==> Distinct(tables[k]))
    ensures Dispose(DoRelink(s, tables, k), k) == s
  {
    if k in tables {
      var s2 := DoRelink(s, tables, k);
      LifeRestores(s.got, tables[k], [true]);
      assert InvalidateTimes(s2.got, s2.links[k], [true]) == Invalidate(s2.got, s2.links[k], true);
      assert Dispose(s2, k).links == s.links;
    }
  }

  /** Relinkages that live inside one another: construct one, let others come and go, invalidate it. */
  datatype Nested = Idle | Nest(relocs: seq<Reloc>, inner: Nested, next: Nested)

  predicate Fits(got: Got, nested: Nested) {
    nested.Nest? ==>
      && SlotsMapped(got, nested.relocs) && Distinct(nested.relocs)
      && Fits(got, nested.inner) && Fits(got, nested.next)
  }

  lemma {:induction false} FitsByKeys(got: Got, got': Got, nested: Nested)
    requires Fits(got, nested) && got'.Keys == got.Keys
    ensures Fits(got', nested)
  {
    if nested.Nest? {
      assert forall a :: a in got.Keys <==> a in got'.Keys;
      FitsByKeys(got, got', nested.inner);
      FitsByKeys(got, got', nested.next);
    }
  }

  function RunNested(got: Got, nested: Nested): (r: Got)
    requires Fits(got, nested)
    ensures r.Keys == got.Keys
    decreases nested
  {
    match nested
    case Idle => got
    case Nest(relocs, inner, next) =>
      var (g, link) := Construct(got, relocs, true);
      FitsByKeys(got, g, inner);
      var g1 := RunNested(g, inner);
      assert SlotsMapped(g1, link.relocs) by {
        assert forall a :: a in g1.Keys <==> a in g.Keys;
      }
      var (g2, _) := Invalidate(g1, link, true);
      FitsByKeys(got, g2, next);
      RunNested(g2, next)
  }

  /** Whichever slots they share, relinkages that are undone in reverse order leave the GOT as it was. */
  lemma {:induction false} LastLinkedFirstUnlinkedRestores(got: Got, nested: Nested)
    requires Fits(got, nested)
    ensures RunNested(got, nested) == got
    decreases nested
  {
    if nested.Nest? {
      var (g, link) := Construct(got, nested.relocs, true);
      FitsByKeys(got, g, nested.inner);
      LastLinkedFirstUnlinkedRestores(g, nested.inner);
      LifeRestores(got, nested.relocs, [true]);
      assert InvalidateTimes(g, link, [true]) == Invalidate(g, link, true);
      LastLinkedFirstUnlinkedRestores(got, nested.next);
    }
  }

  /** Two destinations that define the same slot and are unlinked in the order they were linked do not:
      they leave the first one's address behind, which is the original
      value only if that was the address already. */
  lemma SharedSlotKeepsFirstAddress(got: Got, first: seq<Reloc>, second: seq<Reloc>, i: nat, j: nat)
    requires SlotsMapped(got, first) && SlotsMapped(got, second) && Distinct(first) && Distinct(second)
    requires Writes(first) && Writes(second)
    requires i < |first| && j < |second| && first[i].slot == second[j].slot
    ensures var (g1, link1) := Construct(got, first, true);
            var (g2, link2) := Construct(g1, second, true);
            var (g3, _) := Invalidate(g2, link1, true);
            var (g4, _) := Invalidate(g3, link2, true);
            && g4[first[i].slot] == first[i].saved
            && (g4[first[i].slot] == got[first[i].slot] <==> first[i].saved == got[first[i].slot])
  {
    SwapExchanges(got, first);
    var (g1, link1) := Construct(got, first, true);
    SwapExchanges(g1, second);
    var (g2, link2) := Construct(g1, second, true);
    WritesLooksAtSlots(first, link1.relocs);
    WritesLooksAtSlots(second, link2.relocs);
    SwapExchanges(g2, link1.relocs);
    var (g3, _) := Invalidate(g2, link1, true);
    SwapExchanges(g3, link2.relocs);
  }

  /** The loop of ~DynamicModule invalidates the links it finds, each once. */
  lemma {:induction false} DestroyInvalidatesEach(s: System, order: seq<Key>, links: seq<Link>)
    requires LinksMapped(s) && |links| == |order|
    requires forall i | 0 <= i < |order| :: order[i] in s.links && links[i] == s.links[order[i]]
    requires forall i, j | 0 <= i < j < |order| :: order[i] != order[j]
    ensures InvalidateAll(s, order).got == InvalidateEach(s.got, links)
    ensures InvalidateAll(s, order).links.Keys == s.links.Keys
    ensures forall k | k in s.links && k !in order :: InvalidateAll(s, order).links[k] == s.links[k]
  {
    if order != [] {
      var n := |order| - 1;
      DestroyInvalidatesEach(s, order[..n], links[..n]);
      assert order[n] !in order[..n];
    }
  }
}
