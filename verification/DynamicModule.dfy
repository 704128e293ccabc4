/** DynamicModule and Relinkage as objects: from the ELF tables of two modules to the GOT. */
module DynamicModules {
  import opened Words
  import opened ElfFiles
  import opened Relinkages

  const R_X86_64_GLOB_DAT: nat := 6
  const R_X86_64_JUMP_SLOT: nat := 7
  const STT_OBJECT: nat := 1
  const STT_FUNC: nat := 2
  const DT_NEEDED: int := 1

  /** The NUL-terminated string at `offset` in a string table. */
  function NameAt(table: string, offset: nat): string
    decreases |table| - offset
  {
    if offset >= |table| || table[offset] == '\0' then "" else [table[offset]] + NameAt(table, offset + 1)
  }

  function Plus(base: Word64, offset: Word64): Word64 {
    (base + offset) % 0x1_0000_0000_0000_0000
  }

  /** The tables of a module and where it is loaded. */
  datatype Image = Image(base: Word64, dynsym: seq<Sym>, dynstr: string, relas: seq<Rela>, dynamic: seq<Dyn>)

  /** The symbol is a function or an object that the module defines, and has this name. */
  predicate Defines(m: Image, i: nat, name: string)
    requires i < |m.dynsym|
  {
    var s := m.dynsym[i];
    (s.kind == STT_FUNC || s.kind == STT_OBJECT) && s.shndx != 0 && NameAt(m.dynstr, s.name) == name
  }

  /** getDynamicSymbol, from symbol `i` on: the address of the first match, or null. */
  function Lookup(m: Image, name: string, i: nat): Word64
    requires i <= |m.dynsym|
    decreases |m.dynsym| - i
  {
    if i == |m.dynsym| then 0
    else if Defines(m, i, name) then Plus(m.base, m.dynsym[i].value)
    else Lookup(m, name, i + 1)
  }

  /** The result is the address of the first symbol that defines the name, `j`, and null if there
      is none. */
  lemma {:induction false} LookupFindsFirst(m: Image, name: string, i: nat, j: nat)
    requires i <= j <= |m.dynsym| && (j < |m.dynsym| ==> Defines(m, j, name))
    requires forall k: nat | i <= k < j :: !Defines(m, k, name)
    ensures Lookup(m, name, i) == if j < |m.dynsym| then Plus(m.base, m.dynsym[j].value) else 0
    decreases j - i
  {
    if i < j {
      LookupFindsFirst(m, name, i + 1, j);
    }
  }

  /** The tables are consistent enough to be followed. */
  predicate WellFormed(m: Image) {
    forall i | 0 <= i < |m.relas| :: m.relas[i].sym < |m.dynsym|
  }

  /** What iterateOverRelocations passes on for entry `i`. */
  function SlotOf(m: Image, i: nat): Word64
    requires i < |m.relas|
  {
    Plus(m.base, m.relas[i].offset)
  }

  function NameOf(m: Image, i: nat): string
    requires WellFormed(m) && i < |m.relas|
  {
    NameAt(m.dynstr, m.dynsym[m.relas[i].sym].name)
  }

  /** The entry is a GOT slot for a symbol that `destination` defines. */
  predicate Redirected(source: Image, destination: Image, i: nat)
    requires WellFormed(source) && i < |source.relas|
  {
    && (source.relas[i].kind == R_X86_64_GLOB_DAT || source.relas[i].kind == R_X86_64_JUMP_SLOT)
    && Lookup(destination, NameOf(source, i), 0) != 0
  }

  /** The relocations that the first `n` entries give rise to. */
  function Collected(source: Image, destination: Image, n: nat): seq<Reloc>
    requires WellFormed(source) && n <= |source.relas|
  {
    if n == 0 then []
    else
      Collected(source, destination, n - 1) +
      if Redirected(source, destination, n - 1)
      then [Reloc(SlotOf(source, n - 1), Lookup(destination, NameOf(source, n - 1), 0))]
      else []
  }

  lemma {:induction false} CollectedExactly(source: Image, destination: Image, n: nat, r: Reloc)
    requires WellFormed(source) && n <= |source.relas|
    ensures r in Collected(source, destination, n) <==>
            exists i :: 0 <= i < n && Redirected(source, destination, i)
                        && r == Reloc(SlotOf(source, i), Lookup(destination, NameOf(source, i), 0))
  {
    if n > 0 {
      CollectedExactly(source, destination, n - 1, r);
    }
  }

  /** How many of the first `n` entries give rise to a relocation. */
  function Redirections(source: Image, destination: Image, n: nat): nat
    requires WellFormed(source) && n <= |source.relas|
  {
    if n == 0 then 0
    else Redirections(source, destination, n - 1) + if Redirected(source, destination, n - 1) then 1 else 0
  }

  /** The relocations are collected in the order of the entries, one each. */
  lemma {:induction false} CollectedInOrder(source: Image, destination: Image, n: nat, i: nat)
    requires WellFormed(source) && i < n <= |source.relas| && Redirected(source, destination, i)
    ensures |Collected(source, destination, n)| == Redirections(source, destination, n)
    ensures Redirections(source, destination, i) < |Collected(source, destination, n)|
    ensures Collected(source, destination, n)[Redirections(source, destination, i)]
            == Reloc(SlotOf(source, i), Lookup(destination, NameOf(source, i), 0))
  {
    CollectedLength(source, destination, n);
    CollectedLength(source, destination, n - 1);
    if i < n - 1 {
      CollectedInOrder(source, destination, n - 1, i);
    }
  }

  lemma {:induction false} CollectedLength(source: Image, destination: Image, n: nat)
    requires WellFormed(source) && n <= |source.relas|
    ensures |Collected(source, destination, n)| == Redirections(source, destination, n)
  {
    if n > 0 {
      CollectedLength(source, destination, n - 1);
    }
  }

  // ---------------------------------------------------------------- in terms of the tables

  /** `name` is the NUL-free stretch at `offset`, up to a NUL or the end of the table. */
  predicate Spells(table: string, offset: nat, name: string) {
    var end := offset + |name|;
    if offset > |table| then name == ""
    else
      && '\0' !in name && end <= |table| && table[offset..end] == name
      && (end == |table| || table[end] == '\0')
  }

  /** That is what NameAt reads, and nothing else. */
  lemma NameAtSpells(table: string, offset: nat, name: string)
    ensures NameAt(table, offset) == name <==> Spells(table, offset, name)
  {
    NameAtIsSpelled(table, offset);
    if Spells(table, offset, name) {
      if |name| <= |NameAt(table, offset)| {
        SpellsOneName(table, offset, name, NameAt(table, offset));
      } else {
        SpellsOneName(table, offset, NameAt(table, offset), name);
      }
    }
  }

  lemma {:induction false} NameAtIsSpelled(table: string, offset: nat)
    ensures Spells(table, offset, NameAt(table, offset))
    decreases |table| - offset
  {
    if offset < |table| && table[offset] != '\0' {
      NameAtIsSpelled(table, offset + 1);
      var rest := NameAt(table, offset + 1);
      assert table[offset..offset + 1 + |rest|] == [table[offset]] + table[offset + 1..offset + 1 + |rest|];
    }
  }

  lemma SpellsOneName(table: string, offset: nat, a: string, b: string)
    requires Spells(table, offset, a) && Spells(table, offset, b) && |a| <= |b|
    ensures a == b
  {
    assert forall k | 0 <= k < |b| && offset <= |table| :: table[offset + k] == b[k] && b[k] != '\0';
    assert forall k | 0 <= k < |a| && offset <= |table| :: table[offset + k] == a[k];
  }

  /** Symbol `j` of `m` is a function or an object (types 2 and 1 of the ELF specification) that `m`
      defines under this name. */
  predicate Exports(m: Image, j: nat, name: string)
    requires j < |m.dynsym|
  {
    (m.dynsym[j].kind == 1 || m.dynsym[j].kind == 2) && m.dynsym[j].shndx != 0 && Spells(m.dynstr, m.dynsym[j].name, name)
  }

  /** `name` is at `addr` in `m`: in the first symbol that exports it. */
  predicate IsAt(m: Image, name: string, addr: Word64) {
    exists j: nat :: j < |m.dynsym| && Exports(m, j, name) && (forall k: nat | k < j :: !Exports(m, k, name))
                     && addr == (m.base + m.dynsym[j].value) % 0x1_0000_0000_0000_0000
  }

  lemma ExportsIsDefines(m: Image, j: nat, name: string)
    requires j < |m.dynsym|
    ensures Exports(m, j, name) <==> Defines(m, j, name)
  {
    NameAtSpells(m.dynstr, m.dynsym[j].name, name);
  }

  /** The lookup ends at symbol `j` if that is the first to export the name, and at none if none does. */
  lemma LookupEnds(m: Image, name: string, j: nat)
    requires j <= |m.dynsym| && (j < |m.dynsym| ==> Exports(m, j, name))
    requires forall k: nat | k < j :: !Exports(m, k, name)
    ensures Lookup(m, name, 0) == if j < |m.dynsym| then (m.base + m.dynsym[j].value) % 0x1_0000_0000_0000_0000 else 0
  {
    hide Exports, Defines;
    forall k: nat | k < |m.dynsym|
      ensures Exports(m, k, name) <==> Defines(m, k, name)
    {
      ExportsIsDefines(m, k, name);
    }
    LookupFindsFirst(m, name, 0, j);
  }

  /** getDynamicSymbol finds exactly what is there, in terms of the tables; the null address stands for a
      name that is not exported, or is exported at null. */
  lemma LookupIsAt(m: Image, name: string)
    ensures IsAt(m, name, Lookup(m, name, 0)) || Lookup(m, name, 0) == 0
    ensures forall addr: Word64 :: IsAt(m, name, addr) ==> addr == Lookup(m, name, 0)
    ensures (forall j: nat | j < |m.dynsym| :: !Exports(m, j, name)) ==> Lookup(m, name, 0) == 0
  {
    hide Exports, Lookup;
    if j: nat :| j < |m.dynsym| && Exports(m, j, name) {
      var f := FirstExport(m, name, j);
      LookupEnds(m, name, f);
    } else {
      LookupEnds(m, name, |m.dynsym|);
    }
    forall addr: Word64 | IsAt(m, name, addr)
      ensures addr == Lookup(m, name, 0)
    {
      var j: nat :| j < |m.dynsym| && Exports(m, j, name) && (forall k: nat | k < j :: !Exports(m, k, name))
                    && addr == (m.base + m.dynsym[j].value) % 0x1_0000_0000_0000_0000;
      LookupEnds(m, name, j);
    }
  }

  lemma {:induction false} FirstExport(m: Image, name: string, j: nat) returns (f: nat)
    requires j < |m.dynsym| && Exports(m, j, name)
    ensures f <= j && Exports(m, f, name) && forall k: nat | k < f :: !Exports(m, k, name)
  {
    if k: nat :| k < j && Exports(m, k, name) {
      f := FirstExport(m, name, k);
    } else {
      f := j;
    }
  }

  /** Relocation `i` of `m` is a GLOB_DAT or JUMP_SLOT (types 6 and 7 of the AMD64 psABI, section 4.4)
      for `name`, at `slot`. */
  predicate Wants(m: Image, i: nat, name: string, slot: Word64)
    requires WellFormed(m) && i < |m.relas|
  {
    && (m.relas[i].kind == 6 || m.relas[i].kind == 7)
    && Spells(m.dynstr, m.dynsym[m.relas[i].sym].name, name)
    && slot == (m.base + m.relas[i].offset) % 0x1_0000_0000_0000_0000
  }

  lemma WantsIsRedirected(source: Image, destination: Image, i: nat, name: string, slot: Word64, addr: Word64)
    requires WellFormed(source) && i < |source.relas|
    ensures Wants(source, i, name, slot) && IsAt(destination, name, addr) && addr != 0 ==>
              Redirected(source, destination, i) && SlotOf(source, i) == slot && Lookup(destination, NameOf(source, i), 0) == addr
    ensures Redirected(source, destination, i) ==>
              && Wants(source, i, NameOf(source, i), SlotOf(source, i))
              && IsAt(destination, NameOf(source, i), Lookup(destination, NameOf(source, i), 0))
  {
    NameAtSpells(source.dynstr, source.dynsym[source.relas[i].sym].name, name);
    NameAtSpells(source.dynstr, source.dynsym[source.relas[i].sym].name, NameOf(source, i));
    LookupIsAt(destination, name);
    LookupIsAt(destination, NameOf(source, i));
  }

  /** From tables to memory: when the slots are written, every GLOB_DAT or JUMP_SLOT entry of any
      SHT_RELA section holds the address of the first symbol that the destination exports under the
      entry's whole name, and all other memory is unchanged. */
  lemma RelinkagePatchesExactlyItsSlots(got: Got, source: Image, destination: Image)
    requires WellFormed(source)
    requires var relocs := Collected(source, destination, |source.relas|);
             SlotsMapped(got, relocs) && Distinct(relocs) && Writes(relocs)
    ensures var got' := Construct(got, Collected(source, destination, |source.relas|), true).0;
            && (forall i: nat, name, slot, addr |
                  i < |source.relas| && Wants(source, i, name, slot) && IsAt(destination, name, addr) && addr != 0 ::
                  slot in got' && got'[slot] == addr)
            && (forall a | a in got && (forall i: nat, name, addr |
                                          i < |source.relas| && Wants(source, i, name, a) && IsAt(destination, name, addr) ::
                                          addr == 0) ::
                  got'[a] == got[a])
  {
    var relocs := Collected(source, destination, |source.relas|);
    SwapExchanges(got, relocs);
    var got' := Construct(got, relocs, true).0;
    forall i: nat, name, slot, addr |
      i < |source.relas| && Wants(source, i, name, slot) && IsAt(destination, name, addr) && addr != 0
      ensures slot in got' && got'[slot] == addr
    {
      WantsIsRedirected(source, destination, i, name, slot, addr);
      var r := Reloc(slot, addr);
      CollectedExactly(source, destination, |source.relas|, r);
      var j :| 0 <= j < |relocs| && relocs[j] == r;
    }
    forall a | a in got && (forall i: nat, name, addr |
                              i < |source.relas| && Wants(source, i, name, a) && IsAt(destination, name, addr) :: addr == 0)
      ensures got'[a] == got[a]
    {
      if Patches(relocs, a) {
        var j :| 0 <= j < |relocs| && relocs[j].slot == a;
        CollectedExactly(source, destination, |source.relas|, relocs[j]);
        var i :| 0 <= i < |source.relas| && Redirected(source, destination, i)
                 && relocs[j] == Reloc(SlotOf(source, i), Lookup(destination, NameOf(source, i), 0));
        WantsIsRedirected(source, destination, i, NameOf(source, i), a, relocs[j].saved);
      }
    }
  }

  lemma ReplaceEntry<K, V>(m: map<K, V>, k: K, v: V)
    ensures (m - {k})[k := v] == m[k := v]
  {
  }

  // ---------------------------------------------------------------- the objects

  /** The in registry of `m` once the relinkage registered under `name` is gone. */
  function Without(m: DynamicModule, registry: set<Relinkage>, links: map<string, Relinkage>, name: string): set<Relinkage> {
    if name in links && links[name].destination == m then registry - {links[name]} else registry
  }

  /** The module has a DT_NEEDED entry (tag 1) for this name. */
  predicate NeededIn(m: Image, libName: string) {
    exists i :: 0 <= i < |m.dynamic| && m.dynamic[i].tag == 1 && Spells(m.dynstr, m.dynamic[i].value, libName)
  }

  class AddressSpace {
    var words: Got

    constructor (words: Got)
      ensures this.words == words
    {
      this.words := words;
    }
  }

  class DynamicModule {
    const name: string
    const base: Word64
    const elf: ElfFile
    var inRelinkages: set<Relinkage>
    var outRelinkages: map<string, Relinkage>

    constructor (name: string, base: Word64, elf: ElfFile)
      ensures this.name == name && this.base == base && this.elf == elf
      ensures inRelinkages == {} && outRelinkages == map[]
    {
      this.name, this.base, this.elf := name, base, elf;
      this.inRelinkages, this.outRelinkages := {}, map[];
    }

    /** The tables of this module; they do not depend on what has been read already. */
    function Tables(): Image {
      Image(base, DynSymOf(elf.sections), DynStrOf(elf.sections, elf.shstrndx), RelaOf(elf.sections), DynamicOf(elf.sections))
    }

    /** DynamicModule::getDynamicSymbol. */
    method GetDynamicSymbol(symbName: string) returns (addr: Word64)
      requires elf.Valid()
      modifies elf
      ensures elf.Valid() && addr == Lookup(Tables(), symbName, 0)
    {
      addr := 0;
      var dynstr := elf.GetDynStrTab();
      var dynsym := elf.GetDynSymTab();
      for i := 0 to |dynsym|
        invariant addr == 0 && elf.Valid() && Lookup(Tables(), symbName, 0) == Lookup(Tables(), symbName, i)
      {
        var symb := dynsym[i];
        if (symb.kind == STT_FUNC || symb.kind == STT_OBJECT) && symb.shndx != 0 && NameAt(dynstr, symb.name) == symbName {
          addr := Plus(base, symb.value);
          break;
        }
      }
    }

    /** The loop over DT_NEEDED entries in relink finds the name. */
    predicate Needs(libName: string) {
      exists i :: 0 <= i < |Tables().dynamic| && Tables().dynamic[i].tag == DT_NEEDED
                  && NameAt(Tables().dynstr, Tables().dynamic[i].value) == libName
    }

    lemma NeedsExactlyIf(libName: string)
      ensures Needs(libName) <==> NeededIn(Tables(), libName)
    {
      var m := Tables();
      forall i | 0 <= i < |m.dynamic|
        ensures NameAt(m.dynstr, m.dynamic[i].value) == libName <==> Spells(m.dynstr, m.dynamic[i].value, libName)
      {
        NameAtSpells(m.dynstr, m.dynamic[i].value, libName);
      }
      if NeededIn(m, libName) {
        var i :| 0 <= i < |m.dynamic| && m.dynamic[i].tag == 1 && Spells(m.dynstr, m.dynamic[i].value, libName);
        assert m.dynamic[i].tag == DT_NEEDED;
      }
    }

    /** The slots of all relinkages out of this module are mapped. */
    ghost predicate OutMapped(mem: AddressSpace)
      reads this, mem, outRelinkages.Values
    {
      forall n | n in outRelinkages :: SlotsMapped(mem.words, outRelinkages[n].relocations)
    }

    /** DynamicModule::unrelink, which erases a map entry and so runs its destructor. */
    method Unrelink(libName: string, mem: AddressSpace, granted: bool)
      requires OutMapped(mem)
      modifies this`outRelinkages, mem, outRelinkages.Values
      modifies (set r: Relinkage | r in outRelinkages.Values :: r.destination)`inRelinkages
      ensures outRelinkages == old(outRelinkages) - {libName}
      ensures mem.words.Keys == old(mem.words.Keys)
      ensures libName !in old(outRelinkages) ==> mem.words == old(mem.words)
      ensures libName in old(outRelinkages) ==>
                var r := old(outRelinkages[libName]);
                (mem.words, r.State()) == Relinkages.Invalidate(old(mem.words), old(r.State()), granted)
      ensures forall m: DynamicModule :: old(allocated(m)) ==>
                m.inRelinkages == Without(m, old(m.inRelinkages), old(outRelinkages), libName)
    {
      if libName in outRelinkages {
        var r := outRelinkages[libName];
        assert r in outRelinkages.Values;
        r.Dispose(mem, granted);
      }
      outRelinkages := outRelinkages - {libName};
    }

    /** The search of relink. */
    method FindsNeeded(libName: string) returns (found: bool)
      requires elf.Valid()
      modifies elf`dynstr, elf`dynamic
      ensures elf.Valid() && found == Needs(libName)
    {
      var dynstr := elf.GetDynStrTab();
      var dynamic := elf.GetDynamic();
      found := false;
      for i := 0 to |dynamic|
        invariant elf.Valid() && !found
        invariant forall j | 0 <= j < i :: !(dynamic[j].tag == DT_NEEDED && NameAt(dynstr, dynamic[j].value) == libName)
      {
        if dynamic[i].tag == DT_NEEDED && NameAt(dynstr, dynamic[i].value) == libName {
          found := true;
          assert Tables().dynamic[i].tag == DT_NEEDED;
          break;
        }
      }
    }

    /** DynamicModule::relink. `granted` are the verdicts of mprotect for the erased relinkage and
        for the new one. */
    method Relink(target: DynamicModule, mem: AddressSpace, granted: (bool, bool))
      requires elf.Valid() && target.elf.Valid() && WellFormed(Tables()) && OutMapped(mem)
      requires SlotsMapped(mem.words, Collected(Tables(), target.Tables(), |Tables().relas|))
      modifies this, mem, elf, target.elf, target`inRelinkages, outRelinkages.Values
      modifies (set r: Relinkage | r in outRelinkages.Values :: r.destination)`inRelinkages
      ensures elf.Valid() && target.elf.Valid()
      ensures !Needs(target.name) ==>
                && outRelinkages == old(outRelinkages) && mem.words == old(mem.words)
                && forall m: DynamicModule :: old(allocated(m)) ==> m.inRelinkages == old(m.inRelinkages)
      ensures Needs(target.name) ==>
                && target.name in outRelinkages && fresh(outRelinkages[target.name])
                && outRelinkages == old(outRelinkages)[target.name := outRelinkages[target.name]]
                && outRelinkages[target.name].source == this && outRelinkages[target.name].destination == target
                && outRelinkages[target.name] in target.inRelinkages
      ensures Needs(target.name) ==>
                var got := if target.name in old(outRelinkages)
                           then Relinkages.Invalidate(old(mem.words), old(outRelinkages[target.name].State()), granted.0).0
                           else old(mem.words);
                (mem.words, outRelinkages[target.name].State())
                == Construct(got, Collected(Tables(), target.Tables(), |Tables().relas|), granted.1)
      ensures Needs(target.name) ==>
                forall m: DynamicModule :: old(allocated(m)) ==>
                  m.inRelinkages == Without(m, old(m.inRelinkages), old(outRelinkages), target.name)
                                    + if m == target then {outRelinkages[target.name]} else {}
    {
      var found := FindsNeeded(target.name);
      if found {
        Replace(target, mem, granted);
      }
    }

    /** The erasure and the emplacement in relink. */
    method Replace(target: DynamicModule, mem: AddressSpace, granted: (bool, bool))
      requires elf.Valid() && target.elf.Valid() && WellFormed(Tables()) && OutMapped(mem)
      requires SlotsMapped(mem.words, Collected(Tables(), target.Tables(), |Tables().relas|))
      modifies this, mem, elf, target.elf, target`inRelinkages, outRelinkages.Values
      modifies (set r: Relinkage | r in outRelinkages.Values :: r.destination)`inRelinkages
      ensures elf.Valid() && target.elf.Valid()
      ensures && target.name in outRelinkages && fresh(outRelinkages[target.name])
              && outRelinkages == old(outRelinkages)[target.name := outRelinkages[target.name]]
              && outRelinkages[target.name].source == this && outRelinkages[target.name].destination == target
              && outRelinkages[target.name] in target.inRelinkages
      ensures var got := if target.name in old(outRelinkages)
                         then Relinkages.Invalidate(old(mem.words), old(outRelinkages[target.name].State()), granted.0).0
                         else old(mem.words);
              (mem.words, outRelinkages[target.name].State())
              == Construct(got, Collected(Tables(), target.Tables(), |Tables().relas|), granted.1)
      ensures forall m: DynamicModule :: old(allocated(m)) ==>
                m.inRelinkages == Without(m, old(m.inRelinkages), old(outRelinkages), target.name)
                                  + if m == target then {outRelinkages[target.name]} else {}
    {
      hide Construct, Collected, Relinkages.Invalidate, WellFormed;
      Unrelink(target.name, mem, granted.0);
      var r := new Relinkage(this, target, mem, granted.1);
      ReplaceEntry(old(outRelinkages), target.name, r);
      outRelinkages := outRelinkages[target.name := r];
    }

    /** The loop of ~DynamicModule over the in registry, in whatever order the set has: `visited` is
        that order, and `links` what each relinkage was. */
    method Destroy(mem: AddressSpace) returns (ghost visited: seq<Relinkage>, ghost links: seq<Link>)
      requires forall r | r in inRelinkages :: SlotsMapped(mem.words, r.relocations)
      modifies inRelinkages, mem
      ensures forall r | r in old(inRelinkages) :: !r.validity
      ensures |links| == |visited| && (forall r :: r in visited <==> r in old(inRelinkages))
      ensures forall i, j | 0 <= i < j < |visited| :: visited[i] != visited[j]
      ensures forall i | 0 <= i < |visited| :: visited[i] in old(inRelinkages) && links[i] == old(visited[i].State())
      ensures forall i | 0 <= i < |links| :: SlotsMapped(old(mem.words), links[i].relocs)
      ensures mem.words == InvalidateEach(old(mem.words), links)
    {
      visited, links := [], [];
      var todo := inRelinkages;
      while todo != {}
        invariant todo <= old(inRelinkages) && |links| == |visited| && inRelinkages == old(inRelinkages)
        invariant forall r :: r in visited <==> r in old(inRelinkages) && r !in todo
        invariant forall i, j | 0 <= i < j < |visited| :: visited[i] != visited[j]
        invariant forall r | r in todo :: r.State() == old(r.State()) && SlotsMapped(old(mem.words), r.relocations)
        invariant forall r | r in visited :: !r.validity
        invariant forall i | 0 <= i < |visited| :: visited[i] in old(inRelinkages) && links[i] == old(visited[i].State())
        invariant forall i | 0 <= i < |links| :: SlotsMapped(old(mem.words), links[i].relocs)
        invariant mem.words == InvalidateEach(old(mem.words), links)
        decreases todo
      {
        hide Relinkages.Invalidate, InvalidateEach, SlotsMapped;
        var r :| r in todo;
        ghost var link := r.State();
        InvalidateOneMore(old(mem.words), links, link);
        r.Invalidate(mem, true);
        visited, links := visited + [r], links + [link];
        todo := todo - {r};
      }
    }
  }

  class Relinkage {
    var validity: bool
    var relocations: seq<Reloc>
    const source: DynamicModule
    const destination: DynamicModule

    ghost function State(): Link
      reads this
    {
      Link(validity, relocations)
    }

    /** Relinkage::Relinkage. */
    constructor (source: DynamicModule, destination: DynamicModule, mem: AddressSpace, granted: bool)
      requires source.elf.Valid() && destination.elf.Valid() && WellFormed(source.Tables())
      requires SlotsMapped(mem.words, Collected(source.Tables(), destination.Tables(), |source.Tables().relas|))
      modifies mem, source.elf, destination.elf, destination`inRelinkages
      ensures source.elf.Valid() && destination.elf.Valid()
      ensures this.source == source && this.destination == destination
      ensures (mem.words, State()) ==
              Construct(old(mem.words), Collected(source.Tables(), destination.Tables(), |source.Tables().relas|), granted)
      ensures destination.inRelinkages == old(destination.inRelinkages) + {this}
    {
      this.source, this.destination := source, destination;
      this.validity, this.relocations := true, [];
      new;
      Collect();
      WriteRelocations(mem, granted);
      destination.inRelinkages := destination.inRelinkages + {this};
    }

    /** iterateOverRelocations with the visitor of the constructor. */
    method Collect()
      requires source.elf.Valid() && destination.elf.Valid() && WellFormed(source.Tables()) && relocations == []
      modifies this`relocations, source.elf, destination.elf
      ensures source.elf.Valid() && destination.elf.Valid()
      ensures relocations == Collected(source.Tables(), destination.Tables(), |source.Tables().relas|)
    {
      hide Lookup, NameAt, Plus;
      var dynstr := source.elf.GetDynStrTab();
      var dynsym := source.elf.GetDynSymTab();
      var relas := source.elf.GetRela();
      for i := 0 to |relas|
        invariant source.elf.Valid() && destination.elf.Valid()
        invariant relocations == Collected(source.Tables(), destination.Tables(), i)
      {
        var rela := relas[i];
        var relaAddr := Plus(source.base, rela.offset);
        var relaName := NameAt(dynstr, dynsym[rela.sym].name);
        if rela.kind == R_X86_64_GLOB_DAT || rela.kind == R_X86_64_JUMP_SLOT {
          var symbAddr := destination.GetDynamicSymbol(relaName);
          if symbAddr != 0 {
            relocations := relocations + [Reloc(relaAddr, symbAddr)];
          }
        }
      }
    }

    /** Relinkage::writeRelocations. */
    method WriteRelocations(mem: AddressSpace, granted: bool)
      requires SlotsMapped(mem.words, relocations)
      modifies this`relocations, mem
      ensures (mem.words, relocations) == Write(old(mem.words), old(relocations), granted)
    {
      var lowest: Word64, highest: Word64 := MAX_WORD, 0;
      for i := 0 to |relocations|
        invariant lowest == Lowest(relocations, i) && highest == Highest(relocations, i)
      {
        if relocations[i].slot < lowest {
          lowest := relocations[i].slot;
        }
        if relocations[i].slot > lowest {
          highest := relocations[i].slot;
        }
      }
      if lowest < highest {
        if !granted {
          return;
        }
        for i := 0 to |relocations|
          invariant |relocations| == |old(relocations)| && SlotsMapped(mem.words, relocations)
          invariant (mem.words, relocations) == Swap(old(mem.words), old(relocations), i)
        {
          var rela := relocations[i];
          relocations := relocations[i := Reloc(rela.slot, mem.words[rela.slot])];
          mem.words := mem.words[rela.slot := rela.saved];
        }
      }
    }

    /** Relinkage::invalidate. */
    method Invalidate(mem: AddressSpace, granted: bool)
      requires SlotsMapped(mem.words, relocations)
      modifies this, mem
      ensures (mem.words, State()) == Relinkages.Invalidate(old(mem.words), old(State()), granted)
    {
      if validity {
        validity := false;
        WriteRelocations(mem, granted);
      }
    }

    /** Relinkage::~Relinkage. */
    method Dispose(mem: AddressSpace, granted: bool)
      requires SlotsMapped(mem.words, relocations)
      modifies this, mem, destination`inRelinkages
      ensures (mem.words, State()) == Relinkages.Invalidate(old(mem.words), old(State()), granted)
      ensures destination.inRelinkages == old(destination.inRelinkages) - {this}
    {
      Invalidate(mem, granted);
      destination.inRelinkages := destination.inRelinkages - {this};
    }
  }
}
