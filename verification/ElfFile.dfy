/** The tables of an ELF file, read on first use and cached. */
module ElfFiles {
  import opened Options
  import opened Words

  datatype SectionKind = SHT_DYNAMIC | SHT_SYMTAB | SHT_DYNSYM | SHT_STRTAB | SHT_RELA | SHT_OTHER

  /** Elf64_Rela, Elf64_Sym and Elf64_Dyn, with r_info taken apart. */
  datatype Rela = Rela(offset: Word64, sym: nat, kind: nat)
  datatype Sym = Sym(name: nat, kind: nat, shndx: nat, value: Word64)
  datatype Dyn = Dyn(tag: int, value: nat)

  /** A section header and what readSection reads for it, in the reading its type calls for. */
  datatype Section = Section(kind: SectionKind, alloc: bool, relas: seq<Rela>, syms: seq<Sym>, dyns: seq<Dyn>, chars: string)

  /** The relocations of all SHT_RELA sections, in the order of the section table. */
  function RelaOf(sections: seq<Section>): seq<Rela> {
    if sections == [] then []
    else
      var last := sections[|sections| - 1];
      RelaOf(sections[..|sections| - 1]) + if last.kind == SHT_RELA then last.relas else []
  }

  /** An entry is in the concatenation exactly if some SHT_RELA section holds it. */
  lemma {:induction false} RelaOfHasAll(sections: seq<Section>, r: Rela)
    ensures r in RelaOf(sections) <==> exists i :: 0 <= i < |sections| && sections[i].kind == SHT_RELA && r in sections[i].relas
  {
    if sections != [] {
      var front := sections[..|sections| - 1];
      RelaOfHasAll(front, r);
      if r in RelaOf(front) {
        var i :| 0 <= i < |front| && front[i].kind == SHT_RELA && r in front[i].relas;
        assert sections[i] == front[i];
      }
      if i :| 0 <= i < |sections| && sections[i].kind == SHT_RELA && r in sections[i].relas {
        assert i < |front| ==> front[i] == sections[i];
      }
    }
  }

  /** How many relocations there are in all. */
  function TotalRelas(sections: seq<Section>): nat {
    if sections == [] then 0
    else
      var last := sections[|sections| - 1];
      TotalRelas(sections[..|sections| - 1]) + if last.kind == SHT_RELA then |last.relas| else 0
  }

  /** Entry `j` of SHT_RELA section `i` stands behind those of the SHT_RELA sections before it, and there
      is nothing else. */
  lemma {:induction false} RelaOfPlaces(sections: seq<Section>, i: nat, j: nat)
    requires i < |sections| && sections[i].kind == SHT_RELA && j < |sections[i].relas|
    ensures |RelaOf(sections)| == TotalRelas(sections)
    ensures TotalRelas(sections[..i]) + j < |RelaOf(sections)|
    ensures RelaOf(sections)[TotalRelas(sections[..i]) + j] == sections[i].relas[j]
    decreases |sections|
  {
    var n := |sections| - 1;
    RelaOfLength(sections);
    RelaOfLength(sections[..n]);
    if i < n {
      assert sections[..n][..i] == sections[..i];
      RelaOfPlaces(sections[..n], i, j);
    }
  }

  lemma {:induction false} RelaOfLength(sections: seq<Section>)
    ensures |RelaOf(sections)| == TotalRelas(sections)
    decreases |sections|
  {
    if sections != [] {
      RelaOfLength(sections[..|sections| - 1]);
    }
  }

  /** The first section of a kind, from `i` on. */
  function FirstOfKind(sections: seq<Section>, kind: SectionKind, i: nat): (r: Option<nat>)
    requires i <= |sections|
    ensures r.Some? ==> i <= r.value < |sections| && sections[r.value].kind == kind
    ensures forall j | i <= j < |sections| && (r.None? || j < r.value) :: sections[j].kind != kind
    decreases |sections| - i
  {
    if i == |sections| then None
    else if sections[i].kind == kind then Some(i)
    else FirstOfKind(sections, kind, i + 1)
  }

  /** The dynamic string table: the first allocated SHT_STRTAB that does not hold section names. */
  predicate IsDynStr(sections: seq<Section>, shstrndx: nat, i: nat)
    requires i < |sections|
  {
    sections[i].kind == SHT_STRTAB && sections[i].alloc && i != shstrndx
  }

  function FirstDynStr(sections: seq<Section>, shstrndx: nat, i: nat): (r: Option<nat>)
    requires i <= |sections|
    ensures r.Some? ==> i <= r.value < |sections| && IsDynStr(sections, shstrndx, r.value)
    ensures forall j | i <= j < |sections| && (r.None? || j < r.value) :: !IsDynStr(sections, shstrndx, j)
    decreases |sections| - i
  {
    if i == |sections| then None
    else if IsDynStr(sections, shstrndx, i) then Some(i)
    else FirstDynStr(sections, shstrndx, i + 1)
  }

  function DynSymOf(sections: seq<Section>): seq<Sym> {
    var i := FirstOfKind(sections, SHT_DYNSYM, 0);
    if i.Some? then sections[i.value].syms else []
  }

  function DynamicOf(sections: seq<Section>): seq<Dyn> {
    var i := FirstOfKind(sections, SHT_DYNAMIC, 0);
    if i.Some? then sections[i.value].dyns else []
  }

  function DynStrOf(sections: seq<Section>, shstrndx: nat): string {
    var i := FirstDynStr(sections, shstrndx, 0);
    if i.Some? then sections[i.value].chars else []
  }

  /** The symbols of the first SHT_DYNSYM section, the entries of the first SHT_DYNAMIC section, and the
      characters of the first string table that is loaded and does not hold section names: `i` is that
      section, or the number of sections if there is none. */
  lemma DynSymIsFirst(sections: seq<Section>, i: nat)
    requires i <= |sections| && forall j | 0 <= j < i :: sections[j].kind != SHT_DYNSYM
    requires i < |sections| ==> sections[i].kind == SHT_DYNSYM
    ensures DynSymOf(sections) == if i < |sections| then sections[i].syms else []
  {
    var r := FirstOfKind(sections, SHT_DYNSYM, 0);
    assert r.Some? && i < |sections| ==> r.value == i;
  }

  lemma DynamicIsFirst(sections: seq<Section>, i: nat)
    requires i <= |sections| && forall j | 0 <= j < i :: sections[j].kind != SHT_DYNAMIC
    requires i < |sections| ==> sections[i].kind == SHT_DYNAMIC
    ensures DynamicOf(sections) == if i < |sections| then sections[i].dyns else []
  {
    var r := FirstOfKind(sections, SHT_DYNAMIC, 0);
    assert r.Some? && i < |sections| ==> r.value == i;
  }

  lemma DynStrIsFirst(sections: seq<Section>, shstrndx: nat, i: nat)
    requires i <= |sections|
    requires forall j | 0 <= j < i :: sections[j].kind != SHT_STRTAB || !sections[j].alloc || j == shstrndx
    requires i < |sections| ==> sections[i].kind == SHT_STRTAB && sections[i].alloc && i != shstrndx
    ensures DynStrOf(sections, shstrndx) == if i < |sections| then sections[i].chars else []
  {
    assert forall j: nat | j < |sections| ::
        IsDynStr(sections, shstrndx, j) <==> sections[j].kind == SHT_STRTAB && sections[j].alloc && j != shstrndx;
    var r := FirstDynStr(sections, shstrndx, 0);
    if i < |sections| {
      assert IsDynStr(sections, shstrndx, i);
      assert r.value == i;
    }
  }

  class ElfFile {
    const sections: seq<Section>
    const shstrndx: nat

    var dynamic: Option<seq<Dyn>>
    var dynsym: Option<seq<Sym>>
    var dynstr: Option<string>
    var rela: Option<seq<Rela>>

    /** A cache that has been filled holds what the section table says. */
    ghost predicate Valid()
      reads this
    {
      && (dynamic.Some? ==> dynamic.value == DynamicOf(sections))
      && (dynsym.Some? ==> dynsym.value == DynSymOf(sections))
      && (dynstr.Some? ==> dynstr.value == DynStrOf(sections, shstrndx))
      && (rela.Some? ==> rela.value == RelaOf(sections))
    }

    constructor (sections: seq<Section>, shstrndx: nat)
      ensures Valid() && this.sections == sections && this.shstrndx == shstrndx
    {
      this.sections, this.shstrndx := sections, shstrndx;
      this.dynamic, this.dynsym, this.dynstr, this.rela := None, None, None, None;
    }

    method GetRela() returns (v: seq<Rela>)
      requires Valid()
      modifies this`rela
      ensures Valid() && v == RelaOf(sections)
    {
      if rela.None? {
        v := [];
        for i := 0 to |sections|
          invariant v == RelaOf(sections[..i]) && rela.None?
        {
          assert sections[..i + 1][..i] == sections[..i];
          if sections[i].kind == SHT_RELA {
            v := v + sections[i].relas;
          }
        }
        assert sections[..|sections|] == sections;
        rela := Some(v);
      }
      v := rela.value;
    }

    method GetDynSymTab() returns (v: seq<Sym>)
      requires Valid()
      modifies this`dynsym
      ensures Valid() && v == DynSymOf(sections)
    {
      if dynsym.None? {
        v := [];
        for i := 0 to |sections|
          invariant FirstOfKind(sections, SHT_DYNSYM, 0) == FirstOfKind(sections, SHT_DYNSYM, i)
          invariant v == [] && dynsym.None?
        {
          if sections[i].kind == SHT_DYNSYM {
            v := sections[i].syms;
            break;
          }
        }
        dynsym := Some(v);
      }
      v := dynsym.value;
    }

    method GetDynamic() returns (v: seq<Dyn>)
      requires Valid()
      modifies this`dynamic
      ensures Valid() && v == DynamicOf(sections)
    {
      if dynamic.None? {
        v := [];
        for i := 0 to |sections|
          invariant FirstOfKind(sections, SHT_DYNAMIC, 0) == FirstOfKind(sections, SHT_DYNAMIC, i)
          invariant v == [] && dynamic.None?
        {
          if sections[i].kind == SHT_DYNAMIC {
            v := sections[i].dyns;
            break;
          }
        }
        dynamic := Some(v);
      }
      v := dynamic.value;
    }

    method GetDynStrTab() returns (v: string)
      requires Valid()
      modifies this`dynstr
      ensures Valid() && v == DynStrOf(sections, shstrndx)
    {
      if dynstr.None? {
        v := [];
        for i := 0 to |sections|
          invariant FirstDynStr(sections, shstrndx, 0) == FirstDynStr(sections, shstrndx, i)
          invariant v == [] && dynstr.None?
        {
          if IsDynStr(sections, shstrndx, i) {
            v := sections[i].chars;
            break;
          }
        }
        dynstr := Some(v);
      }
      v := dynstr.value;
    }
  }
}
