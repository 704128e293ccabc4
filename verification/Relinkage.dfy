/**
 Relinkage: GOT slots are patched by swapping each with a saved value, and restored by running
 the same swap again.
 */
module Relinkages {
  import opened Words

  /** 64-bit words of mapped memory, by address. */
  type Got = map<Word64, Word64>

  /** One entry of `_relocations`: a slot and what to put there, or what was there. */
  datatype Reloc = Reloc(slot: Word64, saved: Word64)

  const MAX_WORD: Word64 := 0xFFFF_FFFF_FFFF_FFFF
  const PAGE: nat := 4096

  predicate SlotsMapped(got: Got, relocs: seq<Reloc>) {
    forall i | 0 <= i < |relocs| :: relocs[i].slot in got
  }

  predicate Distinct(relocs: seq<Reloc>) {
    forall i, j | 0 <= i < j < |relocs| :: relocs[i].slot != relocs[j].slot
  }

  // ---------------------------------------------------------------- the bounds

  /** The bounds that writeRelocations computes, after the first `n` entries. */
  function Lowest(relocs: seq<Reloc>, n: nat): Word64
    requires n <= |relocs|
  {
    if n == 0 then MAX_WORD
    else if relocs[n - 1].slot < Lowest(relocs, n - 1) then relocs[n - 1].slot
    else Lowest(relocs, n - 1)
  }

  function Highest(relocs: seq<Reloc>, n: nat): Word64
    requires n <= |relocs|
  {
    if n == 0 then 0
    else if relocs[n - 1].slot > Lowest(relocs, n) then relocs[n - 1].slot
    else Highest(relocs, n - 1)
  }

  /** writeRelocations goes on to write. */
  predicate Writes(relocs: seq<Reloc>) {
    Lowest(relocs, |relocs|) < Highest(relocs, |relocs|)
  }

  /** Some slot is followed by a higher one. */
  predicate Rises(relocs: seq<Reloc>, n: nat)
    requires n <= |relocs|
  {
    exists i, j :: 0 <= i < j < n && relocs[i].slot < relocs[j].slot
  }

  lemma {:induction false} LowestIsMin(relocs: seq<Reloc>, n: nat)
    requires n <= |relocs|
    ensures forall i | 0 <= i < n :: Lowest(relocs, n) <= relocs[i].slot
    ensures n > 0 ==> exists i :: 0 <= i < n && Lowest(relocs, n) == relocs[i].slot
  {
    if n > 0 {
      LowestIsMin(relocs, n - 1);
      if n > 1 && Lowest(relocs, n) != relocs[n - 1].slot {
        var i :| 0 <= i < n - 1 && Lowest(relocs, n - 1) == relocs[i].slot;
        assert Lowest(relocs, n) == relocs[i].slot;
      }
    }
  }

  lemma {:induction false} BoundsByPrefix(relocs: seq<Reloc>, n: nat)
    requires n <= |relocs|
    ensures Rises(relocs, n) <==> Lowest(relocs, n) < Highest(relocs, n)
    ensures !Rises(relocs, n) ==> Highest(relocs, n) == 0
  {
    if n > 0 {
      BoundsByPrefix(relocs, n - 1);
      LowestIsMin(relocs, n);
      LowestIsMin(relocs, n - 1);
      var a := relocs[n - 1].slot;
      if a > Lowest(relocs, n) {
        var i :| 0 <= i < n && Lowest(relocs, n) == relocs[i].slot;
        assert i < n - 1 && relocs[i].slot < relocs[n - 1].slot;
      } else {
        assert forall i | 0 <= i < n :: relocs[i].slot >= a;
        if Rises(relocs, n) {
          var i, j :| 0 <= i < j < n && relocs[i].slot < relocs[j].slot;
          assert j < n - 1;
          assert Rises(relocs, n - 1);
        }
        if Rises(relocs, n - 1) {
          var i, j :| 0 <= i < j < n - 1 && relocs[i].slot < relocs[j].slot;
          assert Rises(relocs, n);
        }
      }
    }
  }

  /** The write happens exactly when the slots are not a non-increasing sequence; so a single
      relocation, or slots listed downwards, are never written. */
  lemma WritesExactlyIfRising(relocs: seq<Reloc>)
    ensures Writes(relocs) <==> exists i, j :: 0 <= i < j < |relocs| && relocs[i].slot < relocs[j].slot
  {
    BoundsByPrefix(relocs, |relocs|);
  }

  /** The guard looks at slots only, so a later pass over the same slots decides alike. */
  lemma WritesLooksAtSlots(relocs: seq<Reloc>, relocs': seq<Reloc>)
    requires |relocs'| == |relocs| && forall i | 0 <= i < |relocs| :: relocs'[i].slot == relocs[i].slot
    ensures Writes(relocs) == Writes(relocs')
  {
    WritesExactlyIfRising(relocs);
    WritesExactlyIfRising(relocs');
  }

  predicate Ascending(relocs: seq<Reloc>) {
    forall i, j | 0 <= i < j < |relocs| :: relocs[i].slot < relocs[j].slot
  }

  lemma {:induction false} AscendingBounds(relocs: seq<Reloc>, n: nat)
    requires Ascending(relocs) && 0 < n <= |relocs|
    ensures Lowest(relocs, n) == relocs[0].slot
    ensures Highest(relocs, n) == if n == 1 then 0 else relocs[n - 1].slot
  {
    if n > 1 {
      AscendingBounds(relocs, n - 1);
      assert relocs[0].slot < relocs[n - 1].slot;
    } else {
      assert Lowest(relocs, 0) == MAX_WORD;
    }
  }

  /** mprotect changes every page that holds a byte of [start, start + length). */
  predicate Unprotected(start: int, length: int, byteAddr: int) {
    length > 0 && PageOf(start) <= PageOf(byteAddr) <= PageOf(start + length - 1)
  }

  predicate WordUnprotected(start: int, length: int, slot: int) {
    forall b | slot <= b < slot + 8 :: Unprotected(start, length, b)
  }

  /** For ascending aligned slots the bounds are the first and the last slot, and every byte about
      to be written lies in a page that the first mprotect made writable exactly if the last slot
      does not start a page. */
  lemma PagesAreUnprotectedExactlyIf(relocs: seq<Reloc>)
    requires Ascending(relocs) && |relocs| >= 2
    requires forall i | 0 <= i < |relocs| :: relocs[i].slot % 8 == 0
    ensures Lowest(relocs, |relocs|) == relocs[0].slot && Highest(relocs, |relocs|) == relocs[|relocs| - 1].slot
    ensures var lo, hi := Lowest(relocs, |relocs|), Highest(relocs, |relocs|);
            var start := lo - lo % PAGE;
            (forall i | 0 <= i < |relocs| :: WordUnprotected(start, hi - start, relocs[i].slot)) <==> hi % PAGE != 0
  {
    AscendingBounds(relocs, |relocs|);
    var lo, hi := relocs[0].slot, relocs[|relocs| - 1].slot;
    var start := lo - lo % PAGE;
    if hi % PAGE != 0 {
      forall i | 0 <= i < |relocs|
        ensures WordUnprotected(start, hi - start, relocs[i].slot)
      {
        assert lo <= relocs[i].slot <= hi;
        AlignedWordInPage(lo, relocs[i].slot, hi);
      }
    } else {
      LastPageLeftOut(lo, hi);
      var last := |relocs| - 1;
      assert !WordUnprotected(start, hi - start, relocs[last].slot) by {
        assert !Unprotected(start, hi - start, relocs[last].slot);
      }
    }
  }

  function PageOf(byteAddr: int): int {
    byteAddr / PAGE
  }

  lemma PagesInOrder(a: int, b: int)
    requires a <= b
    ensures PageOf(a) <= PageOf(b)
  {
  }

  lemma PageOfStart(a: int)
    ensures PageOf(a - a % PAGE) == PageOf(a)
  {
  }

  lemma PageOfPrevious(a: int)
    ensures PageOf(a - 1) == if a % PAGE == 0 then PageOf(a) - 1 else PageOf(a)
  {
  }

  lemma PageOfWord(slot: int, b: int)
    requires slot % 8 == 0 && slot <= b < slot + 8
    ensures PageOf(b) == PageOf(slot)
  {
    var q := slot / 8;
    assert PageOf(slot) == q / 512 && PageOf(b) == q / 512;
  }

  lemma AlignedWordInPage(lo: int, slot: int, hi: int)
    requires 0 <= lo <= slot <= hi && lo < hi && slot % 8 == 0 && hi % PAGE != 0
    ensures WordUnprotected(lo - lo % PAGE, hi - (lo - lo % PAGE), slot)
  {
    hide PageOf;
    PageOfStart(lo);
    PageOfPrevious(hi);
    PagesInOrder(lo, slot);
    PagesInOrder(slot, hi);
    var start := lo - lo % PAGE;
    var length := hi - start;
    forall b | slot <= b < slot + 8
      ensures Unprotected(start, length, b)
    {
      PageOfWord(slot, b);
    }
  }

  lemma LastPageLeftOut(lo: int, hi: int)
    requires 0 <= lo < hi && hi % PAGE == 0
    ensures !Unprotected(lo - lo % PAGE, hi - (lo - lo % PAGE), hi)
  {
    hide PageOf;
    PageOfPrevious(hi);
  }

  // ---------------------------------------------------------------- the swap

  /** The GOT and the relocations after the first `n` swaps. */
  function Swap(got: Got, relocs: seq<Reloc>, n: nat): (r: (Got, seq<Reloc>))
    requires n <= |relocs| && SlotsMapped(got, relocs)
    ensures |r.1| == |relocs| && r.0.Keys == got.Keys
    ensures forall i | 0 <= i < |relocs| :: r.1[i].slot == relocs[i].slot
    ensures forall i | n <= i < |relocs| :: r.1[i] == relocs[i]
  {
    if n == 0 then (got, relocs)
    else
      var (g, rs) := Swap(got, relocs, n - 1);
      var r := rs[n - 1];
      (g[r.slot := r.saved], rs[n - 1 := Reloc(r.slot, g[r.slot])])
  }

  /** Each slot has been exchanged with its saved value, and nothing else has changed. */
  predicate Exchanged(got: Got, relocs: seq<Reloc>, got': Got, relocs': seq<Reloc>)
    requires SlotsMapped(got, relocs)
  {
    && got'.Keys == got.Keys && |relocs'| == |relocs|
    && (forall i | 0 <= i < |relocs| ::
          relocs'[i] == Reloc(relocs[i].slot, got[relocs[i].slot]) && got'[relocs[i].slot] == relocs[i].saved)
    && (forall a | a in got && !Patches(relocs, a) :: got'[a] == got[a])
  }

  predicate Patches(relocs: seq<Reloc>, a: Word64) {
    exists i :: 0 <= i < |relocs| && relocs[i].slot == a
  }

  lemma {:induction false} SwapPrefix(got: Got, relocs: seq<Reloc>, n: nat)
    requires n <= |relocs| && SlotsMapped(got, relocs) && Distinct(relocs)
    ensures var (g, rs) := Swap(got, relocs, n);
            && (forall i | 0 <= i < n :: rs[i] == Reloc(relocs[i].slot, got[relocs[i].slot]) && g[relocs[i].slot] == relocs[i].saved)
            && (forall i | n <= i < |relocs| :: g[relocs[i].slot] == got[relocs[i].slot])
            && (forall a | a in got && !Patches(relocs, a) :: g[a] == got[a])
  {
    if n > 0 {
      SwapPrefix(got, relocs, n - 1);
    }
  }

  /** On distinct slots the loop is one simultaneous exchange. */
  lemma SwapExchanges(got: Got, relocs: seq<Reloc>)
    requires SlotsMapped(got, relocs) && Distinct(relocs)
    ensures var (g, rs) := Swap(got, relocs, |relocs|); Exchanged(got, relocs, g, rs)
  {
    SwapPrefix(got, relocs, |relocs|);
  }

  /** writeRelocations; `granted` is the verdict of the first mprotect. */
  function Write(got: Got, relocs: seq<Reloc>, granted: bool): (r: (Got, seq<Reloc>))
    requires SlotsMapped(got, relocs)
    ensures r.0.Keys == got.Keys && SlotsMapped(r.0, r.1)
  {
    if Writes(relocs) && granted then Swap(got, relocs, |relocs|) else (got, relocs)
  }

  /** writeRelocations undoes itself. */
  lemma WriteTwiceRestores(got: Got, relocs: seq<Reloc>, granted: bool)
    requires SlotsMapped(got, relocs) && Distinct(relocs)
    ensures var (g, rs) := Write(got, relocs, granted); Write(g, rs, granted) == (got, relocs)
  {
    var (g, rs) := Write(got, relocs, granted);
    WritesLooksAtSlots(relocs, rs);
    if Writes(relocs) && granted {
      SwapExchanges(got, relocs);
      SwapExchanges(g, rs);
      var (g2, rs2) := Swap(g, rs, |rs|);
      ExchangedTwice(got, relocs, g, rs, g2, rs2);
    }
  }

  lemma ExchangedTwice(got: Got, relocs: seq<Reloc>, g: Got, rs: seq<Reloc>, g2: Got, rs2: seq<Reloc>)
    requires SlotsMapped(got, relocs) && Exchanged(got, relocs, g, rs)
    requires SlotsMapped(g, rs) && Exchanged(g, rs, g2, rs2)
    ensures g2 == got && rs2 == relocs
  {
    PatchesBySlots(relocs, rs);
    forall a | a in got
      ensures g2[a] == got[a]
    {
      if Patches(relocs, a) {
        var i :| 0 <= i < |relocs| && relocs[i].slot == a;
        assert rs[i].slot == a;
      }
    }
  }

  lemma PatchesBySlots(relocs: seq<Reloc>, relocs': seq<Reloc>)
    requires |relocs'| == |relocs| && forall i | 0 <= i < |relocs| :: relocs'[i].slot == relocs[i].slot
    ensures forall a :: Patches(relocs', a) == Patches(relocs, a)
  {
    forall a
      ensures Patches(relocs', a) == Patches(relocs, a)
    {
      if Patches(relocs, a) {
        var i :| 0 <= i < |relocs| && relocs[i].slot == a;
        assert relocs'[i].slot == a;
      }
      if Patches(relocs', a) {
        var i :| 0 <= i < |relocs'| && relocs'[i].slot == a;
        assert relocs[i].slot == a;
      }
    }
  }

  // ---------------------------------------------------------------- the object's life

  /** The fields of a Relinkage that change. */
  datatype Link = Link(valid: bool, relocs: seq<Reloc>)

  /** The constructor, once the relocations have been collected. */
  function Construct(got: Got, relocs: seq<Reloc>, granted: bool): (Got, Link)
    requires SlotsMapped(got, relocs)
  {
    var (g, rs) := Write(got, relocs, granted);
    (g, Link(true, rs))
  }

  function Invalidate(got: Got, link: Link, granted: bool): (Got, Link)
    requires SlotsMapped(got, link.relocs)
  {
    if link.valid then
      var (g, rs) := Write(got, link.relocs, granted);
      (g, Link(false, rs))
    else (got, link)
  }

  /** invalidate called once for each verdict, the last time by the destructor. */
  function InvalidateTimes(got: Got, link: Link, verdicts: seq<bool>): (r: (Got, Link))
    requires SlotsMapped(got, link.relocs)
    ensures SlotsMapped(r.0, r.1.relocs)
    decreases |verdicts|
  {
    if verdicts == [] then (got, link)
    else
      var (g, l) := Invalidate(got, link, verdicts[0]);
      InvalidateTimes(g, l, verdicts[1..])
  }

  lemma {:induction false} InvalidStays(got: Got, link: Link, verdicts: seq<bool>)
    requires SlotsMapped(got, link.relocs) && !link.valid
    ensures InvalidateTimes(got, link, verdicts) == (got, link)
    decreases |verdicts|
  {
    if verdicts != [] {
      InvalidStays(got, link, verdicts[1..]);
    }
  }

  /** Constructing a relinkage and then invalidating it any number of times, destructor included,
      restores the GOT exactly, as long as mprotect agrees to the first two writes; without the flag the
      second call of invalidate would patch it again. */
  lemma LifeRestores(got: Got, relocs: seq<Reloc>, verdicts: seq<bool>)
    requires SlotsMapped(got, relocs) && Distinct(relocs) && |verdicts| > 0 && verdicts[0]
    ensures var (g, link) := Construct(got, relocs, true);
            && InvalidateTimes(g, link, verdicts) == (got, Link(false, relocs))
            && Write(got, relocs, true).0 == g
  {
    WriteTwiceRestores(got, relocs, true);
    InvalidStays(got, Link(false, relocs), verdicts[1..]);
  }

  /** Writing changes nothing exactly if there is nothing to write or everything is there already. */
  lemma WriteIsIdleExactlyIf(got: Got, relocs: seq<Reloc>)
    requires SlotsMapped(got, relocs) && Distinct(relocs)
    ensures Write(got, relocs, true).0 == got <==>
            !Writes(relocs) || forall i | 0 <= i < |relocs| :: got[relocs[i].slot] == relocs[i].saved
  {
    if Writes(relocs) {
      SwapExchanges(got, relocs);
      var g := Write(got, relocs, true).0;
      if forall i | 0 <= i < |relocs| :: got[relocs[i].slot] == relocs[i].saved {
        forall a | a in got
          ensures g[a] == got[a]
        {
          if Patches(relocs, a) {
            var i :| 0 <= i < |relocs| && relocs[i].slot == a;
          }
        }
      }
    }
  }

  /** Whatever mprotect decides, and however often invalidate is called: memory is the original in the
      end exactly if the constructor and the first invalidate got the same verdict, or there was nothing
      to change. */
  lemma LifeRestoresExactlyIf(got: Got, relocs: seq<Reloc>, granted: bool, verdicts: seq<bool>)
    requires SlotsMapped(got, relocs) && Distinct(relocs) && |verdicts| > 0
    ensures var (g, link) := Construct(got, relocs, granted);
            InvalidateTimes(g, link, verdicts).0 == got
            <==> granted == verdicts[0] || !Writes(relocs) || forall i | 0 <= i < |relocs| :: got[relocs[i].slot] == relocs[i].saved
  {
    var (g, link) := Construct(got, relocs, granted);
    var (g1, link1) := Invalidate(g, link, verdicts[0]);
    InvalidStays(g1, link1, verdicts[1..]);
    WriteIsIdleExactlyIf(got, relocs);
    if granted && verdicts[0] {
      WriteTwiceRestores(got, relocs, true);
    }
  }

  /** The two ways to fail. An mprotect that is refused in the first invalidate leaves the slots patched
      for good; one that is refused in the constructor only makes invalidate patch them, while the
      destination goes away. */
  lemma MixedVerdictsLeaveSlotsPatched(got: Got, relocs: seq<Reloc>, granted: bool, verdicts: seq<bool>)
    requires SlotsMapped(got, relocs) && Distinct(relocs) && Writes(relocs)
    requires |verdicts| > 0 && granted != verdicts[0]
    ensures var (g, link) := Construct(got, relocs, granted);
            var end := InvalidateTimes(g, link, verdicts).0;
            forall i | 0 <= i < |relocs| :: relocs[i].slot in end && end[relocs[i].slot] == relocs[i].saved
  {
    var (g, link) := Construct(got, relocs, granted);
    var (g1, link1) := Invalidate(g, link, verdicts[0]);
    InvalidStays(g1, link1, verdicts[1..]);
    SwapExchanges(got, relocs);
  }

  /** Several relinkages invalidated one after the other. */
  function InvalidateEach(got: Got, links: seq<Link>): (r: Got)
    requires forall i | 0 <= i < |links| :: SlotsMapped(got, links[i].relocs)
    ensures r.Keys == got.Keys
  {
    if links == [] then got
    else
      var last := links[|links| - 1];
      assert SlotsMapped(got, last.relocs);
      Invalidate(InvalidateEach(got, links[..|links| - 1]), last, true).0
  }

  lemma InvalidateOneMore(got: Got, links: seq<Link>, last: Link)
    requires SlotsMapped(got, last.relocs) && forall i | 0 <= i < |links| :: SlotsMapped(got, links[i].relocs)
    ensures SlotsMapped(InvalidateEach(got, links), last.relocs)
    ensures InvalidateEach(got, links + [last]) == Invalidate(InvalidateEach(got, links), last, true).0
  {
    assert (links + [last])[..|links|] == links;
  }
}
