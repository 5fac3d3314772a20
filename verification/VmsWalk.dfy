// The page-table walk with its fault retry, and vms_read and vms_write.
module VmsWalk {
  import opened Common
  import opened VmsState
  import opened VmsForks

  const MMU_LEVELS: nat := 3

  // ---------------------------------------------------------------- the walk

  predicate ShouldFault(level: int, e: Entry) {
    if !e.valid then true
    else if level != 0 && (e.read || e.write) then true
    else if level == 0 && !e.read && !e.write then true
    else false
  }

  function IndexAt(v: Vpn, level: int): int {
    if level == 2 then v.l2 else if level == 1 then v.l1 else v.l0
  }

  // NoPages is the exit of the allocator, Fatal that of a fatal page fault.
  datatype WalkResult = NoPages | Fatal | Found(slot: Slot, state: State)

  // The loop of mmu() from a given level, retry flag and table page on.
  function Walk(s: State, v: Vpn, level: int, faulted: bool, p: int): (r: WalkResult)
    requires Ok(s) && VpnOk(v) && 0 <= level < MMU_LEVELS && IsPage(p)
    ensures r.Found? ==> Ok(r.state) && r.state.root == s.root && r.slot in AllSlots() && At(r.state, r.slot.p, r.slot.k).valid
    decreases 2 * level + (if faulted then 0 else 1)
  {
    var e := At(s, p, IndexAt(v, level));
    if ShouldFault(level, e) then
      if !faulted then
        match Handle(s, p, IndexAt(v, level))
        case None => NoPages
        case Some(s1) => Walk(s1, v, level, true, p)
      else Fatal
    else if level != 0 then Walk(s, v, level - 1, false, e.page)
    else Found(Slot(p, IndexAt(v, level)), s)
  }

  // ---------------------------------------------------------------- words

  // The four bytes of an int, least significant first.
  function ToBytes(w: Word): (b: seq<Byte>)
    ensures |b| == 4
  {
    var n: int := w;
    [(n % 256) as Byte, (n / 256 % 256) as Byte, (n / 65536 % 256) as Byte, (n / 16777216) as Byte]
  }

  function FromBytes(b: seq<Byte>): Word
    requires |b| == 4
  {
    b[0] as int + 256 * b[1] as int + 65536 * b[2] as int + 16777216 * b[3] as int
  }

  lemma WordRoundTrip(w: Word)
    ensures FromBytes(ToBytes(w)) == w
  {
    var n: int := w;
    assert n / 65536 == n / 256 / 256 && n / 16777216 == n / 256 / 256 / 256;
  }

  // An access touches four bytes of one page.
  predicate OffsetOk(off: int) { 0 <= off <= PAGE_SIZE - 4 }

  function LoadWord(b: seq<Byte>, off: int): Word
    requires |b| == PAGE_SIZE && OffsetOk(off)
  {
    FromBytes(b[off..off + 4])
  }

  function StoreWord(b: seq<Byte>, off: int, w: Word): (b': seq<Byte>)
    requires |b| == PAGE_SIZE && OffsetOk(off)
    ensures |b'| == PAGE_SIZE
    ensures forall i | 0 <= i < PAGE_SIZE && !(off <= i < off + 4) :: b'[i] == b[i]
    ensures LoadWord(b', off) == w
  {
    var b' := b[..off] + ToBytes(w) + b[off + 4..];
    assert b'[off..off + 4] == ToBytes(w);
    WordRoundTrip(w);
    b'
  }

  // The first byte is the least significant one: read one byte further on, a stored
  // word has lost its lowest byte.
  lemma StoredOrder(b: seq<Byte>, off: int, w: Word)
    requires |b| == PAGE_SIZE && OffsetOk(off) && OffsetOk(off + 1)
    ensures LoadWord(StoreWord(b, off, w), off + 1) % 0x100_0000 == w / 256
  {
    var b' := b[..off] + ToBytes(w) + b[off + 4..];
    var n: int := w;
    assert b'[off + 1..off + 5] == ToBytes(w)[1..] + [b[off + 4]];
    assert n / 65536 == n / 256 / 256 && n / 16777216 == n / 256 / 256 / 256;
  }

  // ---------------------------------------------------------------- accesses

  // Loads and stores at an address in page q of the pool.
  function LoadAt(s: State, q: int, off: int): Word
    requires Ok(s) && OffsetOk(off)
  {
    if IsPage(q) then LoadWord(s.bytes[q], off) else 0
  }

  function StoreAt(s: State, q: int, off: int, w: Word): (s': State)
    requires Ok(s) && OffsetOk(off)
    ensures Ok(s') && s'.root == s.root
  {
    if IsPage(q) then s.(bytes := s.bytes[q := StoreWord(s.bytes[q], off, w)]) else s
  }

  datatype ReadResult = ReadNoPages | ReadFatal | ReadOk(value: Word, state: State)

  function Read(s: State, v: Vpn, off: int): (r: ReadResult)
    requires Ok(s) && IsPage(s.root) && VpnOk(v) && OffsetOk(off)
    ensures r.ReadOk? ==> Ok(r.state) && r.state.root == s.root
  {
    match Walk(s, v, MMU_LEVELS - 1, false, s.root)
    case NoPages => ReadNoPages
    case Fatal => ReadFatal
    case Found(x, s1) =>
      if At(s1, x.p, x.k).read then ReadOk(LoadAt(s1, At(s1, x.p, x.k).page, off), s1)
      else
        match Handle(s1, x.p, x.k)
        case None => ReadNoPages
        case Some(s2) =>
          if At(s2, x.p, x.k).read then ReadOk(LoadAt(s2, At(s2, x.p, x.k).page, off), s2)
          else ReadFatal
  }

  datatype WriteResult = WriteNoPages | WriteFatal | WriteOk(state: State)

  function Write(s: State, v: Vpn, off: int, w: Word): (r: WriteResult)
    requires Ok(s) && IsPage(s.root) && VpnOk(v) && OffsetOk(off)
    ensures r.WriteOk? ==> Ok(r.state) && r.state.root == s.root
  {
    match Walk(s, v, MMU_LEVELS - 1, false, s.root)
    case NoPages => WriteNoPages
    case Fatal => WriteFatal
    case Found(x, s1) =>
      if At(s1, x.p, x.k).write then WriteOk(StoreAt(s1, At(s1, x.p, x.k).page, off, w))
      else
        match Handle(s1, x.p, x.k)
        case None => WriteNoPages
        case Some(s2) =>
          if At(s2, x.p, x.k).write then WriteOk(StoreAt(s2, At(s2, x.p, x.k).page, off, w))
          else WriteFatal
  }
}
