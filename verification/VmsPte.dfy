// The 64-bit words behind the model: page-table entries, addresses and page
// pointers, with the masks and shifts of the code.  The layout is that of Sv39,
// section 4.4 of the RISC-V Privileged Architecture.
module VmsPte {
  const PTE_CUSTOM: bv64 := 0x100
  const PTE_WRITE: bv64 := 0x4
  const PTE_READ: bv64 := 0x2
  const PTE_VALID: bv64 := 0x1
  const ONES: bv64 := 0xFFFF_FFFF_FFFF_FFFF

  // ---------------------------------------------------------------- entries

  function PpnMask(): bv64 { (ONES << 20) >> 10 }

  function GetPpn(e: bv64): bv64 { (e & PpnMask()) >> 10 }

  function SetPpn(e: bv64, ppn: bv64): bv64 { (e & !PpnMask()) | ((ppn << 20) >> 10) }

  function SetFlag(e: bv64, f: bv64): bv64 { e | f }

  function ClearFlag(e: bv64, f: bv64): bv64 { e & !f }

  predicate Flag(e: bv64, f: bv64) { e & f != 0 }

  function CopyFlag(src: bv64, dst: bv64, f: bv64): bv64 {
    if Flag(src, f) then SetFlag(dst, f) else ClearFlag(dst, f)
  }

  // entry_copy: the PPN of a given page and the four flags of the source.
  function EntryCopy(src: bv64, dst: bv64, ppn: bv64): bv64 {
    var d0 := SetPpn(dst, ppn);
    var d1 := CopyFlag(src, d0, PTE_CUSTOM);
    var d2 := CopyFlag(src, d1, PTE_WRITE);
    var d3 := CopyFlag(src, d2, PTE_READ);
    CopyFlag(src, d3, PTE_VALID)
  }

  // The fields of an entry that the model keeps.
  datatype Fields = Fields(ppn: bv64, custom: bool, write: bool, read: bool, valid: bool)

  function FieldsOf(e: bv64): Fields {
    Fields(GetPpn(e), Flag(e, PTE_CUSTOM), Flag(e, PTE_WRITE), Flag(e, PTE_READ), Flag(e, PTE_VALID))
  }

  // The bits that belong to no field.
  function Rest(e: bv64): bv64 { e & !(PpnMask() | PTE_CUSTOM | PTE_WRITE | PTE_READ | PTE_VALID) }

  lemma PpnRoundTrip(e: bv64, ppn: bv64)
    ensures GetPpn(SetPpn(e, ppn)) == ppn <==> ppn < 0x1000_0000_0000
    ensures SetPpn(e, ppn) & !PpnMask() == e & !PpnMask()
    ensures PpnMask() == 0x003F_FFFF_FFFF_FC00
  {
  }

  // Where the fields are: the flags in bits 8, 2, 1 and 0, the page number from
  // bit 10 on for 44 bits.
  lemma FieldBits(e: bv64)
    ensures FieldsOf(e).custom <==> (e >> 8) & 1 == 1
    ensures FieldsOf(e).write <==> (e >> 2) & 1 == 1
    ensures FieldsOf(e).read <==> (e >> 1) & 1 == 1
    ensures FieldsOf(e).valid <==> e & 1 == 1
    ensures FieldsOf(e).ppn == (e << 10) >> 20
  {
  }

  // Entries are determined by their fields and the remaining bits.
  lemma FieldsComplete(e: bv64, e': bv64)
    ensures FieldsOf(e) == FieldsOf(e') && Rest(e) == Rest(e') <==> e == e'
  {
  }

  lemma SetPpnFields(e: bv64, ppn: bv64)
    requires ppn < 0x1000_0000_0000
    ensures FieldsOf(SetPpn(e, ppn)) == FieldsOf(e).(ppn := ppn) && Rest(SetPpn(e, ppn)) == Rest(e)
  {
  }

  predicate IsFlag(f: bv64) { f == PTE_CUSTOM || f == PTE_WRITE || f == PTE_READ || f == PTE_VALID }

  function With(x: Fields, f: bv64, b: bool): Fields {
    if f == PTE_CUSTOM then x.(custom := b) else if f == PTE_WRITE then x.(write := b)
    else if f == PTE_READ then x.(read := b) else x.(valid := b)
  }

  lemma SetCustom(e: bv64)
    ensures FieldsOf(SetFlag(e, PTE_CUSTOM)) == FieldsOf(e).(custom := true)
  {
  }

  lemma ClearCustom(e: bv64)
    ensures FieldsOf(ClearFlag(e, PTE_CUSTOM)) == FieldsOf(e).(custom := false)
  {
  }

  lemma SetWrite(e: bv64)
    ensures FieldsOf(SetFlag(e, PTE_WRITE)) == FieldsOf(e).(write := true)
  {
  }

  lemma ClearWrite(e: bv64)
    ensures FieldsOf(ClearFlag(e, PTE_WRITE)) == FieldsOf(e).(write := false)
  {
  }

  lemma SetRead(e: bv64)
    ensures FieldsOf(SetFlag(e, PTE_READ)) == FieldsOf(e).(read := true)
  {
  }

  lemma ClearRead(e: bv64)
    ensures FieldsOf(ClearFlag(e, PTE_READ)) == FieldsOf(e).(read := false)
  {
  }

  lemma SetValid(e: bv64)
    ensures FieldsOf(SetFlag(e, PTE_VALID)) == FieldsOf(e).(valid := true)
  {
  }

  lemma ClearValid(e: bv64)
    ensures FieldsOf(ClearFlag(e, PTE_VALID)) == FieldsOf(e).(valid := false)
  {
  }

  // Setting or clearing a flag changes that field only.
  lemma SetFlagFields(e: bv64, f: bv64)
    requires IsFlag(f)
    ensures FieldsOf(SetFlag(e, f)) == With(FieldsOf(e), f, true)
  {
    hide FieldsOf, SetFlag, ClearFlag;
    SetCustom(e);
    SetWrite(e);
    SetRead(e);
    SetValid(e);
  }

  lemma SetFlagRest(e: bv64, f: bv64)
    requires IsFlag(f)
    ensures Rest(SetFlag(e, f)) == Rest(e)
  {
  }

  lemma ClearFlagFields(e: bv64, f: bv64)
    requires IsFlag(f)
    ensures FieldsOf(ClearFlag(e, f)) == With(FieldsOf(e), f, false)
  {
    hide FieldsOf, SetFlag, ClearFlag;
    ClearCustom(e);
    ClearWrite(e);
    ClearRead(e);
    ClearValid(e);
  }

  lemma ClearFlagRest(e: bv64, f: bv64)
    requires IsFlag(f)
    ensures Rest(ClearFlag(e, f)) == Rest(e)
  {
  }

  lemma CopyFlagFields(src: bv64, dst: bv64, f: bv64)
    requires IsFlag(f)
    ensures FieldsOf(CopyFlag(src, dst, f)) == With(FieldsOf(dst), f, Flag(src, f))
    ensures Rest(CopyFlag(src, dst, f)) == Rest(dst)
  {
    hide FieldsOf, Rest, SetFlag, ClearFlag, Flag, With;
    SetFlagFields(dst, f);
    SetFlagRest(dst, f);
    ClearFlagFields(dst, f);
    ClearFlagRest(dst, f);
  }

  lemma FieldsAre(e: bv64)
    ensures FieldsOf(e) == Fields(GetPpn(e), Flag(e, PTE_CUSTOM), Flag(e, PTE_WRITE), Flag(e, PTE_READ), Flag(e, PTE_VALID))
  {
  }

  // entry_copy copies the fields, with the new PPN, and nothing else.
  lemma EntryCopyFields(src: bv64, dst: bv64, ppn: bv64)
    requires ppn < 0x1000_0000_0000
    ensures FieldsOf(EntryCopy(src, dst, ppn)) == FieldsOf(src).(ppn := ppn)
    ensures Rest(EntryCopy(src, dst, ppn)) == Rest(dst)
  {
    hide FieldsOf, Rest, SetFlag, ClearFlag, SetPpn, Flag, CopyFlag;
    var d0 := SetPpn(dst, ppn);
    var d1 := CopyFlag(src, d0, PTE_CUSTOM);
    var d2 := CopyFlag(src, d1, PTE_WRITE);
    var d3 := CopyFlag(src, d2, PTE_READ);
    SetPpnFields(dst, ppn);
    CopyFlagFields(src, d0, PTE_CUSTOM);
    CopyFlagFields(src, d1, PTE_WRITE);
    CopyFlagFields(src, d2, PTE_READ);
    CopyFlagFields(src, d3, PTE_VALID);
    FieldsAre(src);
  }

  // ---------------------------------------------------------------- pages

  predicate Aligned(p: bv64) { p & 0xFFF == 0 }

  function PpnToPage(ppn: bv64): bv64 { ppn << 12 }

  function PageToPpn(p: bv64): bv64 { p >> 12 }

  // The assertion in vms_page_to_ppn: page aligned, and the top four bits clear.
  predicate PageAsserted(p: bv64) { Aligned(p) && p & 0xF000_0000_0000_0000 == 0 }

  // Page to PPN to entry and back is the identity exactly below 2^56; the
  // assertion in the code admits pages up to 2^60.
  lemma PageRoundTrip(e: bv64, p: bv64)
    requires PageAsserted(p)
    ensures PpnToPage(GetPpn(SetPpn(e, PageToPpn(p)))) == p <==> p < 0x0100_0000_0000_0000
  {
  }

  // Pointers into the pool, as byte addresses.
  function PagePointer(base: int, index: int): int { base + index * 4096 }

  function PageIndex(base: int, p: int): int { (p - base) / 4096 }

  // A pointer read back from an entry is the one stored (PageRoundTrip), so its
  // index is the one stored: the model may keep the index in place of the PPN.
  lemma PoolIndexRoundTrip(base: int, index: int, off: int)
    requires 0 <= off < 4096 && base % 4096 == 0
    ensures PageIndex(base, PagePointer(base, index) + off) == index
    ensures PagePointer(base, index) % 4096 == 0
    ensures PagePointer(base, 0) == base && PagePointer(base, index + 1) == PagePointer(base, index) + 4096
  {
  }

  // ---------------------------------------------------------------- addresses

  // The index of a level starts at bit 9 * level + 12.
  function Index(va: bv64, level: int): bv64
    requires 0 <= level <= 2
  {
    if level == 2 then ((0x1FF << 30) & va) >> 30
    else if level == 1 then ((0x1FF << 21) & va) >> 21
    else ((0x1FF << 12) & va) >> 12
  }

  function Offset(va: bv64): bv64 { va & 0xFFF }

  function Low39(va: bv64): bv64 { va & 0x7F_FFFF_FFFF }

  function Rebuild(i2: bv64, i1: bv64, i0: bv64, off: bv64): bv64 { (i2 << 30) | (i1 << 21) | (i0 << 12) | off }

  lemma IndexSmall(va: bv64, level: int)
    requires 0 <= level <= 2
    ensures Index(va, level) < 512
  {
  }

  // The three indices and the offset rebuild the low 39 bits of the address.
  lemma IndicesRebuild(va: bv64)
    ensures Rebuild(Index(va, 2), Index(va, 1), Index(va, 0), Offset(va)) == Low39(va)
  {
  }

  lemma IndicesOfLowBits(va: bv64, level: int)
    requires 0 <= level <= 2
    ensures Index(Low39(va), level) == Index(va, level) && Offset(Low39(va)) == Offset(va)
  {
  }

  // Two addresses take the same walk to the same byte exactly if they agree on
  // their low 39 bits.
  lemma IndicesInjective(va: bv64, va': bv64)
    ensures Index(va, 2) == Index(va', 2) && Index(va, 1) == Index(va', 1) && Index(va, 0) == Index(va', 0) && Offset(va) == Offset(va')
      <==> Low39(va) == Low39(va')
  {
    hide Index, Offset, Rebuild, Low39;
    IndicesRebuild(va);
    IndicesRebuild(va');
    IndicesOfLowBits(va, 0);
    IndicesOfLowBits(va, 1);
    IndicesOfLowBits(va, 2);
    IndicesOfLowBits(va', 0);
    IndicesOfLowBits(va', 1);
    IndicesOfLowBits(va', 2);
  }

  // The address of entry `index` of a table, and the table back from it.
  function EntryAddress(table: bv64, index: bv64): bv64 { table + 8 * index }

  function BasePage(entry: bv64): bv64 { entry & !0xFFF }

  lemma BasePageRoundTrip(table: bv64, index: bv64)
    requires Aligned(table) && index < 512
    ensures BasePage(EntryAddress(table, index)) == table
  {
  }

  lemma EntryStride(table: bv64, index: bv64)
    requires Aligned(table) && index < 511
    ensures EntryAddress(table, index + 1) == EntryAddress(table, index) + 8
  {
  }

  lemma EntryEnds(table: bv64)
    requires Aligned(table)
    ensures EntryAddress(table, 0) == table && EntryAddress(table, 511) + 8 == table + 4096
  {
  }

  // The entries of a table are 8 bytes apart and fill its page.
  lemma EntriesFillPage(table: bv64, index: bv64)
    requires Aligned(table) && index < 511
    ensures EntryAddress(table, 0) == table
    ensures EntryAddress(table, index + 1) == EntryAddress(table, index) + 8
    ensures EntryAddress(table, 511) + 8 == table + 4096
  {
    hide EntryAddress;
    EntryStride(table, index);
    EntryEnds(table);
  }

  // Entries at the same address are the same entry of the same table.
  lemma EntryAddressInjective(table: bv64, index: bv64, table': bv64, index': bv64)
    requires Aligned(table) && Aligned(table') && index < 512 && index' < 512
    ensures EntryAddress(table, index) == EntryAddress(table', index') <==> table == table' && index == index'
  {
    BasePageRoundTrip(table, index);
    BasePageRoundTrip(table', index');
  }

  function Translate(page: bv64, va: bv64): bv64 { page | (va & 0xFFF) }

  lemma TranslateIsOffset(page: bv64, va: bv64)
    requires Aligned(page)
    ensures Translate(page, va) == page + Offset(va)
    ensures Translate(page, va) & !0xFFF == page
  {
  }
}
