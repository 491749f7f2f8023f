/**
  The ELF64 section reader that decides whether a binary carries DWARF: it reads the 64-byte
  file header, the section header table and the section name string table into buffers and
  walks the section headers. File layout and string tables follow the System V gABI, chapter
  4 "Object Files" (ELF Header, Sections, String Table).

  Machine integers are bounded types here, so the verifier checks every sum and product for
  overflow and every slice for its bounds.
*/
module Elf {
  newtype byte = x: int | 0 <= x < 0x100
  newtype u64 = x: int | 0 <= x < 0x1_0000_0000_0000_0000

  type Bytes = seq<byte>

  const U64_LIMIT: int := 0x1_0000_0000_0000_0000
  const STRTAB_LIMIT: u64 := 1_000_000
  const DEBUG_INFO: Bytes := [46, 100, 101, 98, 117, 103, 95, 105, 110, 102, 111]
  const MAGIC: Bytes := [127, 69, 76, 70]

  // ---------------------------------------------------------------- what the image says

  /** The value of a little-endian byte string. */
  function LittleEndian(b: Bytes): int {
    if b == [] then 0 else b[0] as int + 256 * LittleEndian(b[1..])
  }

  lemma LittleEndianRange(b: Bytes)
    ensures 0 <= LittleEndian(b)
    ensures |b| == 2 ==> LittleEndian(b) < 0x1_0000
    ensures |b| == 4 ==> LittleEndian(b) < 0x1_0000_0000
    ensures |b| == 8 ==> LittleEndian(b) < U64_LIMIT
  {
    RangeByLength(b);
    assert Pow256(2) == 0x1_0000;
    assert Pow256(4) == 0x1_0000_0000 by { assert Pow256(3) == 0x100_0000; }
    assert Pow256(8) == U64_LIMIT by {
      assert Pow256(5) == 256 * 0x1_0000_0000;
      assert Pow256(7) == 256 * 256 * 256 * 0x1_0000_0000;
    }
  }

  function Pow256(n: nat): int {
    if n == 0 then 1 else 256 * Pow256(n - 1)
  }

  lemma {:induction false} RangeByLength(b: Bytes)
    ensures 0 <= LittleEndian(b) < Pow256(|b|)
  {
    if b != [] {
      RangeByLength(b[1..]);
    }
  }

  /** A field of n bytes at an offset of the image. */
  function Field(img: Bytes, offset: int, n: nat): int
    requires 0 <= offset && offset + n <= |img|
  {
    LittleEndian(img[offset..offset + n])
  }

  function ShOff(img: Bytes): int requires |img| >= 64 { Field(img, 40, 8) }
  function EntSize(img: Bytes): int requires |img| >= 64 { Field(img, 58, 2) }
  function Num(img: Bytes): int requires |img| >= 64 { Field(img, 60, 2) }
  function StrNdx(img: Bytes): int requires |img| >= 64 { Field(img, 62, 2) }

  /** A section header table that lies in the file and designates one of its sections as the name table. */
  predicate TableInFile(img: Bytes) {
    && |img| >= 64 && img[..4] == MAGIC && img[4] == 2
    && ShOff(img) != 0 && EntSize(img) >= 64 && Num(img) > 0 && StrNdx(img) < Num(img)
    && ShOff(img) + Num(img) * EntSize(img) <= |img|
  }

  /** Where section header i starts. */
  function HeaderAt(img: Bytes, i: int): (r: int)
    requires TableInFile(img) && 0 <= i < Num(img)
    ensures 0 <= r && r + 64 <= r + EntSize(img) <= |img|
  {
    LittleEndianRange(img[40..48]);
    ProductBound(i, Num(img), EntSize(img));
    ShOff(img) + i * EntSize(img)
  }

  lemma HeaderFieldsNonNegative(img: Bytes)
    requires |img| >= 64
    ensures 0 <= ShOff(img) < U64_LIMIT && 0 <= EntSize(img) < 0x1_0000
    ensures 0 <= Num(img) < 0x1_0000 && 0 <= StrNdx(img) < 0x1_0000
  {
    LittleEndianRange(img[40..48]);
    LittleEndianRange(img[58..60]);
    LittleEndianRange(img[60..62]);
    LittleEndianRange(img[62..64]);
  }

  /** Section header i lies inside a table of n headers. */
  lemma ProductBound(i: int, n: int, size: int)
    requires 0 <= i < n && 0 <= size
    ensures 0 <= i * size && i * size + size <= n * size
  {
    assert (i + 1) * size <= n * size;
  }

  /** The name table's place in the file. */
  function NamesOff(img: Bytes): int
    requires TableInFile(img)
  {
    HeaderFieldsNonNegative(img);
    Field(img, HeaderAt(img, StrNdx(img)) + 24, 8)
  }

  function NamesSize(img: Bytes): int
    requires TableInFile(img)
  {
    HeaderFieldsNonNegative(img);
    Field(img, HeaderAt(img, StrNdx(img)) + 32, 8)
  }

  predicate NamesPlaced(img: Bytes) {
    && TableInFile(img)
    && 0 <= NamesOff(img) && 0 <= NamesSize(img) && NamesOff(img) + NamesSize(img) <= |img|
  }

  /** The name table is one that the reader is willing to load. */
  predicate NamesInFile(img: Bytes) {
    NamesPlaced(img) && 0 < NamesOff(img) && NamesSize(img) <= STRTAB_LIMIT as int
  }

  function Names(img: Bytes): Bytes
    requires NamesPlaced(img)
  {
    img[NamesOff(img)..NamesOff(img) + NamesSize(img)]
  }

  /** Where the name of section i starts in the name table. */
  function NameIndex(img: Bytes, i: int): int
    requires TableInFile(img) && 0 <= i < Num(img)
  {
    Field(img, HeaderAt(img, i), 4)
  }

  /** The bytes before the first NUL, or all of them. */
  function UntilNul(b: Bytes): Bytes {
    if b == [] || b[0] == 0 then [] else [b[0]] + UntilNul(b[1..])
  }

  /** Some section header points at this name, ended by a NUL or by the end of the name table. */
  ghost predicate HasSection(img: Bytes, name: Bytes) {
    && NamesInFile(img)
    && exists i :: 0 <= i < Num(img) && SectionIs(img, i, name)
  }

  predicate SectionIs(img: Bytes, i: int, name: Bytes)
    requires NamesPlaced(img) && 0 <= i < Num(img)
  {
    0 <= NameIndex(img, i) < NamesSize(img) && UntilNul(Names(img)[NameIndex(img, i)..]) == name
  }

  // ---------------------------------------------------------------- the reader

  datatype Read = Eof | Got(bytes: Bytes)

  /** Seek to an offset and read exactly n bytes. */
  method ReadExact(file: Bytes, offset: u64, n: u64) returns (r: Read)
    ensures r.Got? <==> offset as int + n as int <= |file|
    ensures r.Got? ==> r.bytes == file[offset as int..offset as int + n as int]
  {
    if offset as int + n as int <= |file| {
      r := Got(file[offset as int..offset as int + n as int]);
    } else {
      r := Eof;
    }
  }

  method FromLe(b: Bytes) returns (v: u64)
    requires |b| == 2 || |b| == 4 || |b| == 8
    ensures v as int == LittleEndian(b)
  {
    LittleEndianRange(b);
    v := LittleEndian(b) as u64;
  }

  lemma SliceOfSlice(b: Bytes, lo: int, hi: int, i: int, j: int)
    requires 0 <= lo <= hi <= |b| && 0 <= i <= j <= hi - lo
    ensures b[lo..hi][i..j] == b[lo + i..lo + j]
  {
    assert forall k :: 0 <= k < j - i ==> b[lo..hi][i..j][k] == b[lo + i..lo + j][k];
  }

  lemma MulMono(a: int, c: int, b: int)
    requires 0 <= a <= c && 0 <= b
    ensures 0 <= a * b <= c * b
  {
  }

  lemma ProductFits(a: int, b: int)
    requires 0 <= a < 0x1_0000 && 0 <= b < 0x1_0000
    ensures 0 <= a * b < 0x1_0000_0000
  {
    MulMono(a, 0xFFFF, b);
  }

  lemma UntilNulNext(b: Bytes, start: int, n: int)
    requires 0 <= start <= n < |b| && b[n] != 0
    ensures b[start..n] + UntilNul(b[n..]) == b[start..n + 1] + UntilNul(b[n + 1..])
  {
    assert b[n..][1..] == b[n + 1..];
    assert b[start..n] + [b[n]] == b[start..n + 1];
  }

  /** The first name in a name table from an index on. */
  method NameFrom(strtab: Bytes, start: u64) returns (name: Bytes)
    requires start as int <= |strtab| < U64_LIMIT
    ensures name == UntilNul(strtab[start as int..])
  {
    var n: u64 := start;
    assert strtab[start as int..n as int] == [];
    while n as int < |strtab| && strtab[n] != 0
      invariant start as int <= n as int <= |strtab|
      invariant UntilNul(strtab[start as int..]) == strtab[start as int..n as int] + UntilNul(strtab[n as int..])
      decreases |strtab| - n as int
    {
      UntilNulNext(strtab, start as int, n as int);
      n := n + 1;
    }
    name := strtab[start as int..n as int];
  }

  /** Whether the file has a `.debug_info` section. */
  method HasDwarfSections(file: Bytes) returns (found: bool)
    ensures found <==> HasSection(file, DEBUG_INFO)
  {
    var header := ReadExact(file, 0, 64);
    if header.Eof? {
      return false;
    }
    var hdr := header.bytes;
    if hdr[0..4] != MAGIC || hdr[4] != 2 {
      return false;
    }
    assert hdr[40..48] == file[40..48] && hdr[58..60] == file[58..60];
    assert hdr[60..62] == file[60..62] && hdr[62..64] == file[62..64];
    HeaderFieldsNonNegative(file);
    var shoff := FromLe(hdr[40..48]);
    var entSize := FromLe(hdr[58..60]);
    var num := FromLe(hdr[60..62]);
    var strNdx := FromLe(hdr[62..64]);
    if shoff == 0 || entSize < 64 || num == 0 || strNdx >= num {
      return false;
    }
    ProductFits(num as int, entSize as int);
    var table := ReadExact(file, shoff, num * entSize);
    if table.Eof? {
      return false;
    }
    found := SearchTable(file, table.bytes, shoff, entSize, num, strNdx);
  }

  /** The second half of the reader, once the section header table is in memory. */
  method SearchTable(file: Bytes, table: Bytes, shoff: u64, entSize: u64, num: u64, strNdx: u64) returns (found: bool)
    requires TableInFile(file) && shoff as int == ShOff(file) && entSize as int == EntSize(file)
    requires num as int == Num(file) < 0x1_0000 && strNdx as int == StrNdx(file) && entSize < 0x1_0000
    requires table == file[shoff as int..shoff as int + num as int * entSize as int]
    ensures found <==> HasSection(file, DEBUG_INFO)
  {
    ProductBound(strNdx as int, num as int, entSize as int);
    ProductFits(strNdx as int, entSize as int);
    var base := strNdx * entSize;
    SliceOfSlice(file, shoff as int, shoff as int + num as int * entSize as int, base as int + 24, base as int + 32);
    SliceOfSlice(file, shoff as int, shoff as int + num as int * entSize as int, base as int + 32, base as int + 40);
    var offset := FromLe(table[base + 24..base + 32]);
    var size := FromLe(table[base + 32..base + 40]);
    assert offset as int == NamesOff(file) && size as int == NamesSize(file);
    if offset == 0 || size > STRTAB_LIMIT {
      return false;
    }
    var names := ReadExact(file, offset, size);
    if names.Eof? {
      return false;
    }
    found := WalkHeaders(file, table, names.bytes, shoff, entSize, num);
  }

  method WalkHeaders(file: Bytes, table: Bytes, strtab: Bytes, shoff: u64, entSize: u64, num: u64) returns (found: bool)
    requires NamesInFile(file) && shoff as int == ShOff(file) && entSize as int == EntSize(file)
    requires num as int == Num(file) < 0x1_0000 && entSize < 0x1_0000 && strtab == Names(file)
    requires table == file[shoff as int..shoff as int + num as int * entSize as int]
    ensures found <==> exists i :: 0 <= i < Num(file) && SectionIs(file, i, DEBUG_INFO)
  {
    var i: u64 := 0;
    while i < num
      invariant i <= num
      invariant forall k :: 0 <= k < i as int ==> !SectionIs(file, k, DEBUG_INFO)
    {
      ProductBound(i as int, num as int, entSize as int);
      ProductFits(i as int, entSize as int);
      var start := i * entSize;
      var sh := table[start..][..entSize];
      SliceOfSlice(file, shoff as int, shoff as int + num as int * entSize as int, start as int, start as int + 4);
      assert sh[0..4] == table[start as int..start as int + 4];
      var index := FromLe(sh[0..4]);
      assert index as int == NameIndex(file, i as int);
      if (index as int) < |strtab| {
        var name := NameFrom(strtab, index);
        if name == DEBUG_INFO {
          assert SectionIs(file, i as int, DEBUG_INFO);
          return true;
        }
      }
      i := i + 1;
    }
    return false;
  }

  // ---------------------------------------------------------------- what the gABI says

  const SHN_UNDEF: int := 0
  const SHN_LORESERVE: int := 0xFF00
  const SHT_NULL: int := 0
  const SHT_STRTAB: int := 3

  /** The type of section header i. */
  function Type(img: Bytes, i: int): int
    requires TableInFile(img) && 0 <= i < Num(img)
  {
    Field(img, HeaderAt(img, i) + 4, 4)
  }

  /** Header i describes a section: its index is not reserved, and it is not marked inactive. */
  predicate IsSection(img: Bytes, i: int)
    requires TableInFile(img) && 0 <= i < Num(img)
  {
    SHN_UNDEF < i < SHN_LORESERVE && Type(img, i) != SHT_NULL
  }

  /** The file has a section name string table: its index is that of a section, which holds a string table. */
  predicate HasNameTable(img: Bytes)
    requires TableInFile(img)
  {
    HeaderFieldsNonNegative(img);
    IsSection(img, StrNdx(img)) && Type(img, StrNdx(img)) == SHT_STRTAB
  }

  /** Header i points at this string of the table, with its terminating NUL. */
  predicate Terminated(img: Bytes, i: int, name: Bytes)
    requires NamesPlaced(img) && 0 <= i < Num(img)
  {
    var n := NameIndex(img, i);
    0 <= n && n + |name| < NamesSize(img) && Names(img)[n..n + |name|] == name && Names(img)[n + |name|] == 0
  }

  /** Header i points at these bytes, but the name table ends before any NUL. */
  predicate CutOff(img: Bytes, i: int, name: Bytes)
    requires NamesPlaced(img) && 0 <= i < Num(img)
  {
    var n := NameIndex(img, i);
    0 <= n && n + |name| == NamesSize(img) && Names(img)[n..] == name
  }

  /** Section i has this name: a terminated string of the name table, at an index other than 0, which means no name. */
  predicate Named(img: Bytes, i: int, name: Bytes)
    requires NamesPlaced(img) && 0 <= i < Num(img)
  {
    HasNameTable(img) && IsSection(img, i) && NameIndex(img, i) != 0 && Terminated(img, i, name)
  }

  ghost predicate HasDebugInfo(img: Bytes)
    requires NamesPlaced(img)
  {
    exists i :: 0 <= i < Num(img) && Named(img, i, DEBUG_INFO)
  }

  // ---------------------------------------------------------------- where the reader and the gABI differ

  lemma {:induction false} UntilNulIs(b: Bytes, name: Bytes)
    requires forall c :: c in name ==> c != 0
    ensures UntilNul(b) == name <==> |name| <= |b| && b[..|name|] == name && (|name| < |b| ==> b[|name|] == 0)
  {
    if name != [] && b != [] && b[0] == name[0] {
      var t, rest := name[1..], b[1..];
      assert name[0] in name;
      assert name[0] != 0 && forall c :: c in t ==> c in name;
      UntilNulIs(rest, t);
      assert name == [b[0]] + t;
      if |name| <= |b| {
        assert b[..|name|] == [b[0]] + rest[..|t|];
        assert b[..|name|] == name <==> rest[..|t|] == t by {
          assert b[..|name|][1..] == rest[..|t|];
        }
      }
    }
  }

  /** The reader takes a header for a `.debug_info` section when the name is terminated, and when it is cut off by the
      end of the name table. */
  lemma SectionIsTerminatedOrCutOff(img: Bytes, i: int)
    requires NamesPlaced(img) && 0 <= i < Num(img)
    ensures SectionIs(img, i, DEBUG_INFO) <==> Terminated(img, i, DEBUG_INFO) || CutOff(img, i, DEBUG_INFO)
  {
    var n := NameIndex(img, i);
    if 0 <= n < NamesSize(img) {
      var rest := Names(img)[n..];
      UntilNulIs(rest, DEBUG_INFO);
    }
  }

  /** Header i points at the bytes of the name, but the gABI gives it no such name: the name is cut off or the header
      says it has none, the header is reserved or inactive, or the file has no name table. */
  predicate Spurious(img: Bytes, i: int)
    requires NamesPlaced(img) && 0 <= i < Num(img)
  {
    || CutOff(img, i, DEBUG_INFO)
    || (Terminated(img, i, DEBUG_INFO) && (NameIndex(img, i) == 0 || !IsSection(img, i) || !HasNameTable(img)))
  }

  ghost predicate NoneSpurious(img: Bytes)
    requires NamesPlaced(img)
  {
    forall i :: 0 <= i < Num(img) ==> !Spurious(img, i)
  }

  /** For every image whose tables lie in the file: the reader's answer is the gABI's if and only if some section does
      have the name or no header is spurious; or, for a name table that the reader does not load, if no section has
      it. */
  lemma ReaderAgreesWithGabi(img: Bytes)
    requires NamesPlaced(img)
    ensures (HasSection(img, DEBUG_INFO) <==> HasDebugInfo(img)) <==>
            if NamesInFile(img) then HasDebugInfo(img) || NoneSpurious(img) else !HasDebugInfo(img)
  {
    forall i | 0 <= i < Num(img)
      ensures SectionIs(img, i, DEBUG_INFO) <==> Named(img, i, DEBUG_INFO) || Spurious(img, i)
    {
      SectionIsTerminatedOrCutOff(img, i);
    }
  }

  /** What a caller can look for: a name table of at most 1,000,000 bytes that begins and ends with NUL, and no
      reserved or inactive header that points at the name. */
  ghost predicate WellFormed(img: Bytes)
    requires NamesPlaced(img)
  {
    && NamesInFile(img) && HasNameTable(img)
    && 0 < NamesSize(img) && Names(img)[0] == 0 && Names(img)[NamesSize(img) - 1] == 0
    && forall i :: 0 <= i < Num(img) && !IsSection(img, i) ==> !Terminated(img, i, DEBUG_INFO)
  }

  lemma WellFormedIsNotSpurious(img: Bytes, i: int)
    requires NamesPlaced(img) && WellFormed(img) && 0 <= i < Num(img)
    ensures !Spurious(img, i)
  {
  }

  /** On well-formed images the reader is right. */
  lemma ReaderIsRightWhenWellFormed(img: Bytes)
    requires NamesPlaced(img) && WellFormed(img)
    ensures HasSection(img, DEBUG_INFO) <==> HasDebugInfo(img)
  {
    forall i | 0 <= i < Num(img) ensures !Spurious(img, i) {
      WellFormedIsNotSpurious(img, i);
    }
    ReaderAgreesWithGabi(img);
  }

  // ---------------------------------------------------------------- images on which they differ

  function Zeros(n: nat): (z: Bytes)
    ensures |z| == n
  {
    seq(n, _ => 0)
  }

  lemma SmallLittleEndian(v: byte)
    ensures LittleEndian([v, 0]) == v as int && LittleEndian([v, 0, 0, 0]) == v as int
    ensures LittleEndian([v, 0, 0, 0, 0, 0, 0, 0]) == v as int
  {
    ZeroTail([0]);
    ZeroTail([0, 0, 0]);
    ZeroTail([0, 0, 0, 0, 0, 0, 0]);
    assert [v, 0][1..] == [0] && [v, 0, 0, 0][1..] == [0, 0, 0];
    assert [v, 0, 0, 0, 0, 0, 0, 0][1..] == [0, 0, 0, 0, 0, 0, 0];
  }

  lemma {:induction false} ZeroTail(b: Bytes)
    requires forall x :: x in b ==> x == 0
    ensures LittleEndian(b) == 0
  {
    if b != [] {
      assert b[0] in b && forall x :: x in b[1..] ==> x in b;
      ZeroTail(b[1..]);
    }
  }

  function Word(v: byte): Bytes {
    [v, 0, 0, 0]
  }

  function Xword(v: byte): Bytes {
    [v, 0, 0, 0, 0, 0, 0, 0]
  }

  /** A little-endian file header: three section headers at offset 80, the second of which is the name table. */
  const FILE_HEADER: Bytes := MAGIC + [2, 1, 1] + Zeros(33) + Xword(80) + Zeros(10) + [64, 0] + [3, 0] + [1, 0]

  /** The names, from offset 64: the empty one and `.debug_info`; then padding. */
  const NAME_BYTES: Bytes := [0] + DEBUG_INFO + [0]

  /** A string table of this size at offset 64. */
  function NameTableHeader(size: byte): Bytes {
    Word(0) + Word(3) + Zeros(16) + Xword(64) + Xword(size) + Zeros(24)
  }

  /** A section of this type, named by the string at index 1. */
  function DebugHeader(kind: byte): Bytes {
    Word(1) + Word(kind) + Zeros(56)
  }

  /** The reserved null header, the name table, and one header of a given type that points at `.debug_info`. The name
      table takes in the NUL after that name, or ends before it. */
  function Image(kind: byte, ended: bool): Bytes {
    FILE_HEADER + (NAME_BYTES + Zeros(3)) + Zeros(64) + NameTableHeader(if ended then 13 else 12) + DebugHeader(kind)
  }

  /** The parts of such an image, with a name table of this size. */
  predicate HasParts(img: Bytes, kind: byte, size: byte) {
    && |img| == 272 && img[0..64] == FILE_HEADER && img[64..77] == NAME_BYTES && img[80..144] == Zeros(64)
    && img[144..208] == NameTableHeader(size) && img[208..272] == DebugHeader(kind)
  }

  lemma ImageHasParts(kind: byte, ended: bool)
    ensures HasParts(Image(kind, ended), kind, if ended then 13 else 12)
  {
  }

  lemma FileHeaderFields()
    ensures FILE_HEADER[0..4] == MAGIC && FILE_HEADER[4] == 2 && FILE_HEADER[40..48] == Xword(80)
    ensures FILE_HEADER[58..60] == [64, 0] && FILE_HEADER[60..62] == [3, 0] && FILE_HEADER[62..64] == [1, 0]
  {
  }

  lemma PartsHeader(img: Bytes, kind: byte, size: byte)
    requires HasParts(img, kind, size)
    ensures TableInFile(img) && ShOff(img) == 80 && EntSize(img) == 64 && Num(img) == 3 && StrNdx(img) == 1
  {
    assert img[..4] == MAGIC && img[4] == 2 && img[40..48] == Xword(80) && img[58..60] == [64, 0]
           && img[60..62] == [3, 0] && img[62..64] == [1, 0] by {
      FileHeaderFields();
      SliceOfSlice(img, 0, 64, 0, 4);
      SliceOfSlice(img, 0, 64, 40, 48);
      SliceOfSlice(img, 0, 64, 58, 60);
      SliceOfSlice(img, 0, 64, 60, 62);
      SliceOfSlice(img, 0, 64, 62, 64);
      assert img[4] == img[0..64][4];
    }
    SmallLittleEndian(80);
    SmallLittleEndian(64);
    SmallLittleEndian(3);
    SmallLittleEndian(1);
  }

  lemma NameTableHeaderFields(size: byte)
    ensures var h := NameTableHeader(size);
            |h| == 64 && h[0..4] == Word(0) && h[4..8] == Word(3) && h[24..32] == Xword(64) && h[32..40] == Xword(size)
  {
  }

  lemma PartsNames(img: Bytes, kind: byte, size: byte)
    requires HasParts(img, kind, size) && TableInFile(img) && ShOff(img) == 80 && EntSize(img) == 64
    requires Num(img) == 3 && StrNdx(img) == 1
    ensures NamesOff(img) == 64 && NamesSize(img) == size as int
    ensures Type(img, 1) == SHT_STRTAB && NameIndex(img, 1) == 0
  {
    assert HeaderAt(img, 1) == 144;
    assert img[144..148] == Word(0) && img[148..152] == Word(3) && img[168..176] == Xword(64)
           && img[176..184] == Xword(size) by {
      NameTableHeaderFields(size);
      SliceOfSlice(img, 144, 208, 0, 4);
      SliceOfSlice(img, 144, 208, 4, 8);
      SliceOfSlice(img, 144, 208, 24, 32);
      SliceOfSlice(img, 144, 208, 32, 40);
    }
    SmallLittleEndian(0);
    SmallLittleEndian(3);
    SmallLittleEndian(64);
    SmallLittleEndian(size);
  }

  lemma PartsSections(img: Bytes, kind: byte, size: byte)
    requires HasParts(img, kind, size) && TableInFile(img) && ShOff(img) == 80 && EntSize(img) == 64 && Num(img) == 3
    ensures NameIndex(img, 0) == 0 && NameIndex(img, 2) == 1 && Type(img, 2) == kind as int
  {
    assert HeaderAt(img, 0) == 80 && HeaderAt(img, 2) == 208;
    assert img[80..84] == Word(0) && img[208..212] == Word(1) && img[212..216] == Word(kind) by {
      SliceOfSlice(img, 80, 144, 0, 4);
      SliceOfSlice(img, 208, 272, 0, 4);
      SliceOfSlice(img, 208, 272, 4, 8);
      assert Zeros(64)[0..4] == Word(0) && DebugHeader(kind)[0..4] == Word(1) && DebugHeader(kind)[4..8] == Word(kind);
    }
    SmallLittleEndian(0);
    SmallLittleEndian(1);
    SmallLittleEndian(kind);
  }

  lemma PartsNameTable(img: Bytes, kind: byte, size: byte)
    requires HasParts(img, kind, size) && NamesPlaced(img) && NamesOff(img) == 64 && NamesSize(img) == size as int <= 13
    ensures Names(img) == NAME_BYTES[..size]
  {
    SliceOfSlice(img, 64, 77, 0, size as int);
  }

  /** What an image of these parts says: a name table, and a third header with its type and a name in it. */
  predicate Says(img: Bytes, kind: byte, size: byte) {
    && NamesInFile(img) && HasNameTable(img) && Num(img) == 3 && size <= 13 && Names(img) == NAME_BYTES[..size]
    && NameIndex(img, 0) == 0 && NameIndex(img, 1) == 0 && NameIndex(img, 2) == 1 && Type(img, 2) == kind as int
  }

  lemma PartsSay(img: Bytes, kind: byte, size: byte)
    requires HasParts(img, kind, size) && size <= 13
    ensures Says(img, kind, size)
  {
    PartsHeader(img, kind, size);
    PartsNames(img, kind, size);
    PartsSections(img, kind, size);
    PartsNameTable(img, kind, size);
  }

  lemma NameBytesAre()
    ensures |NAME_BYTES| == 13 && NAME_BYTES[0] == 0 && NAME_BYTES[12] == 0 && NAME_BYTES[1..12] == DEBUG_INFO
  {
  }

  lemma SaysDebugInfo(img: Bytes, kind: byte, size: byte)
    requires Says(img, kind, size) && 12 <= size <= 13
    ensures Terminated(img, 2, DEBUG_INFO) <==> size == 13
    ensures size == 12 ==> CutOff(img, 2, DEBUG_INFO)
  {
    NameBytesAre();
    SliceOfSlice(NAME_BYTES, 0, size as int, 1, 12);
    assert NAME_BYTES[..size] == NAME_BYTES[0..size];
    assert size == 12 ==> Names(img)[1..] == Names(img)[1..12];
  }

  /** The reader says yes to all these images. The gABI does so exactly when the header is of an active type and the
      name table takes in the terminating NUL: a cut-off name and an inactive header, each by itself, make the two
      differ. */
  lemma ReaderAcceptsTooMuch(kind: byte, ended: bool)
    ensures NamesInFile(Image(kind, ended)) && HasSection(Image(kind, ended), DEBUG_INFO)
    ensures HasDebugInfo(Image(kind, ended)) <==> kind != 0 && ended
  {
    ImageHasParts(kind, ended);
    PartsSay(Image(kind, ended), kind, if ended then 13 else 12);
    SaysAnswers(Image(kind, ended), kind, if ended then 13 else 12);
  }

  lemma ThirdIsNamed(img: Bytes, kind: byte, size: byte)
    requires Says(img, kind, size) && 12 <= size <= 13
    ensures Named(img, 2, DEBUG_INFO) <==> kind != 0 && size == 13
  {
    SaysDebugInfo(img, kind, size);
  }

  lemma OthersAreNot(img: Bytes, kind: byte, size: byte)
    requires Says(img, kind, size)
    ensures HasDebugInfo(img) <==> Named(img, 2, DEBUG_INFO)
  {
    forall i | 0 <= i < Num(img) && Named(img, i, DEBUG_INFO) ensures i == 2 {
      assert i == 0 || i == 1 || i == 2;
    }
  }

  lemma SaysAnswers(img: Bytes, kind: byte, size: byte)
    requires Says(img, kind, size) && 12 <= size <= 13
    ensures HasSection(img, DEBUG_INFO)
    ensures HasDebugInfo(img) <==> kind != 0 && size == 13
  {
    assert SectionIs(img, 2, DEBUG_INFO) by {
      SaysDebugInfo(img, kind, size);
      SectionIsTerminatedOrCutOff(img, 2);
    }
    ThirdIsNamed(img, kind, size);
    OthersAreNot(img, kind, size);
  }
}
