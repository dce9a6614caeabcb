/** Universal (fat) Mach-O headers: the parser, an encoder it inverts, and what a
    table that it accepts guarantees. */
module FatHeader {
  import opened Wrappers
  import opened Text

  type U32 = x: int | 0 <= x < 0x1_0000_0000
  type U64 = x: int | 0 <= x < 0x1_0000_0000_0000_0000

  const FAT_MAGIC: U32 := 0xcafe_babe
  const FAT_MAGIC_64: U32 := 0xcafe_babf
  const JAVA_CLASS_MIN_MAJOR: U32 := 45
  const FAT_HEADER_READ_LIMIT: nat := 8 + 45 * 32

  function EntrySize(wide: bool): nat { if wide then 32 else 20 }

  /** The length of `n` table entries. */
  function Span(n: nat, wide: bool): nat { if wide then 32 * n else 20 * n }

  /** Where the first `n` entries end, behind magic and count. */
  function TableEnd(n: nat, wide: bool): nat { 8 + Span(n, wide) }

  /** One slice; CPU types are the unsigned view of the signed header fields. */
  datatype FatArch = FatArch(cputype: U32, cpusubtype: U32, offset: U64, size: U64)

  datatype FatSlice = FatSlice(arch: string, offset: U64, size: U64)

  datatype FatError =
    | TableTruncated(count: nat)
    | EntryTruncated(index: nat)
    | Outside(index: nat, arch: string)
    | ListedTwice(arch: string)

  datatype Parsed = NotFat | Slices(slices: seq<FatSlice>) | Malformed(error: FatError)

  // ---- Architecture names ----

  function HexDigit(d: nat): char
    requires d < 16
  {
    if d < 10 then ('0' as int + d) as char else ('a' as int + d - 10) as char
  }

  function Hex(n: nat): string {
    if n < 16 then [HexDigit(n)] else Hex(n / 16) + [HexDigit(n % 16)]
  }

  const CPU_X86: U32 := 7
  const CPU_X86_64: U32 := 0x0100_0007
  const CPU_ARM: U32 := 12
  const CPU_ARM64: U32 := 0x0100_000c
  const CPU_ARM64_32: U32 := 0x0200_000c
  const CPU_POWERPC: U32 := 18
  const CPU_POWERPC64: U32 := 0x0100_0012

  function KnownName(cputype: U32, subtype: U32): Option<string> {
    if cputype == CPU_X86 && subtype == 3 then Some("i386")
    else if cputype == CPU_X86_64 && subtype == 3 then Some("x86_64")
    else if cputype == CPU_X86_64 && subtype == 8 then Some("x86_64h")
    else if cputype == CPU_ARM && subtype == 6 then Some("armv6")
    else if cputype == CPU_ARM && subtype == 9 then Some("armv7")
    else if cputype == CPU_ARM && subtype == 11 then Some("armv7s")
    else if cputype == CPU_ARM && subtype == 12 then Some("armv7k")
    else if cputype == CPU_ARM64 && subtype == 0 then Some("arm64")
    else if cputype == CPU_ARM64 && subtype == 2 then Some("arm64e")
    else if cputype == CPU_ARM64 && subtype == 12 then Some("arm64e.x1")
    else if cputype == CPU_ARM64_32 && (subtype == 0 || subtype == 1) then Some("arm64_32")
    else if cputype == CPU_POWERPC && subtype == 0 then Some("ppc")
    else if cputype == CPU_POWERPC64 && subtype == 0 then Some("ppc64")
    else None
  }

  /** The subtype without its feature flags, the top eight bits. */
  function Subtype(cpusubtype: U32): U32 {
    cpusubtype % 0x0100_0000
  }

  function ArchName(cputype: U32, cpusubtype: U32): string {
    var known := KnownName(cputype, Subtype(cpusubtype));
    if known.Some? then known.value
    else GeneratedName(cputype, cpusubtype)
  }

  function GeneratedName(cputype: U32, cpusubtype: U32): string {
    ("cputype0x" + Hex(cputype)) + "-" + ("subtype0x" + Hex(cpusubtype))
  }

  predicate IsLower(s: string) {
    forall i :: 0 <= i < |s| ==> !('A' <= s[i] <= 'Z')
  }

  lemma {:induction false} HexIsLower(n: nat)
    ensures forall i :: 0 <= i < |Hex(n)| ==> '0' <= Hex(n)[i] <= '9' || 'a' <= Hex(n)[i] <= 'f'
  {
    if n >= 16 { HexIsLower(n / 16); }
  }

  lemma LowerConcat(p: string, q: string)
    requires IsLower(p) && IsLower(q)
    ensures IsLower(p + q)
  {
  }

  lemma KnownIsLower(cputype: U32, subtype: U32)
    ensures KnownName(cputype, subtype).Some? ==> IsLower(KnownName(cputype, subtype).value)
  {
  }

  lemma ArchNameIsLower(cputype: U32, cpusubtype: U32)
    ensures IsLower(ArchName(cputype, cpusubtype))
  {
    KnownIsLower(cputype, Subtype(cpusubtype));
    HexIsLower(cputype);
    HexIsLower(cpusubtype);
    LowerConcat("cputype0x", Hex(cputype));
    LowerConcat("subtype0x", Hex(cpusubtype));
    LowerConcat("cputype0x" + Hex(cputype), "-");
    LowerConcat(("cputype0x" + Hex(cputype)) + "-", "subtype0x" + Hex(cpusubtype));
  }

  lemma {:induction false} HexInjective(m: nat, n: nat)
    requires Hex(m) == Hex(n)
    ensures m == n
  {
    if m >= 16 && n >= 16 {
      assert Hex(m)[..|Hex(m)| - 1] == Hex(m / 16) && Hex(n)[..|Hex(n)| - 1] == Hex(n / 16);
      HexInjective(m / 16, n / 16);
      assert Hex(m)[|Hex(m)| - 1] == HexDigit(m % 16) && Hex(n)[|Hex(n)| - 1] == HexDigit(n % 16);
    } else {
      assert Hex(m)[|Hex(m)| - 1] == Hex(n)[|Hex(n)| - 1];
      HexNotEmpty(m / 16);
      HexNotEmpty(n / 16);
    }
  }

  lemma {:induction false} HexNotEmpty(n: nat)
    ensures |Hex(n)| >= 1
  {
  }

  /** A dash splits a text at one place only when neither front holds one. */
  lemma SplitAtDash(p: string, q: string, r: string, t: string)
    requires p + "-" + q == r + "-" + t && '-' !in p && '-' !in r
    ensures p == r && q == t
  {
    var whole, other := p + "-" + q, r + "-" + t;
    assert whole[|p|] == '-' && other[|r|] == '-';
    assert whole[..|p|] == p && other[..|r|] == r;
    assert whole[|p| + 1..] == q && other[|r| + 1..] == t;
  }

  lemma SameBack(front: string, p: string, q: string)
    requires front + p == front + q
    ensures p == q
  {
    assert (front + p)[|front|..] == p && (front + q)[|front|..] == q;
  }

  lemma NoDash(front: string, n: nat)
    requires '-' !in front
    ensures '-' !in front + Hex(n)
  {
    HexIsLower(n);
  }

  lemma UnknownNamesTell(c: U32, s: U32, d: U32, t: U32)
    requires GeneratedName(c, s) == GeneratedName(d, t)
    ensures c == d && s == t
  {
    var front, back := "cputype0x", "subtype0x";
    NoDash(front, c);
    NoDash(front, d);
    SplitAtDash(front + Hex(c), back + Hex(s), front + Hex(d), back + Hex(t));
    SameBack(front, Hex(c), Hex(d));
    SameBack(back, Hex(s), Hex(t));
    HexInjective(c, d);
    HexInjective(s, t);
  }

  /** Known names begin with a letter that no generated name begins with. */
  lemma KnownIsNotGenerated(c: U32, s: U32)
    requires KnownName(c, s).Some?
    ensures |KnownName(c, s).value| >= 3 && KnownName(c, s).value[0] != 'c'
  {
  }

  lemma KnownNamesTell(c: U32, s: U32, d: U32, t: U32)
    requires KnownName(c, s).Some? && KnownName(c, s) == KnownName(d, t)
    ensures c == d && (s == t || (c == CPU_ARM64_32 && s <= 1 && t <= 1))
  {
    var n, m := KnownName(c, s).value, KnownName(d, t).value;
    assert |n| == |m|;
    assert forall i :: 0 <= i < |n| ==> n[i] == m[i];
  }

  /** A name tells its architecture: two entries bear the same name only if they
      have the same CPU type and the same subtype up to feature flags (the two
      subtypes of arm64_32 share a name). */
  lemma NamesTellArchitectures(c: U32, s: U32, d: U32, t: U32)
    requires ArchName(c, s) == ArchName(d, t)
    ensures c == d
    ensures Subtype(s) == Subtype(t) || (c == CPU_ARM64_32 && Subtype(s) <= 1 && Subtype(t) <= 1)
  {
    var n, m := KnownName(c, Subtype(s)), KnownName(d, Subtype(t));
    if n.Some? && m.Some? {
      KnownNamesTell(c, Subtype(s), d, Subtype(t));
    } else if n.Some? {
      KnownIsNotGenerated(c, Subtype(s));
    } else if m.Some? {
      KnownIsNotGenerated(d, Subtype(t));
    } else {
      UnknownNamesTell(c, s, d, t);
    }
  }

  // ---- The names that `lipo` gives ----

  datatype Lipo = Lipo(name: string, cputype: U32, subtype: U32)

  const LIPO: seq<Lipo> := [
    Lipo("i386", 7, 3), Lipo("x86_64", 0x0100_0007, 3), Lipo("x86_64h", 0x0100_0007, 8),
    Lipo("armv6", 12, 6), Lipo("armv7", 12, 9), Lipo("armv7s", 12, 11), Lipo("armv7k", 12, 12),
    Lipo("arm64", 0x0100_000c, 0), Lipo("arm64e", 0x0100_000c, 2), Lipo("arm64e.x1", 0x0100_000c, 12),
    Lipo("arm64_32", 0x0200_000c, 0), Lipo("arm64_32", 0x0200_000c, 1),
    Lipo("ppc", 18, 0), Lipo("ppc64", 0x0100_0012, 0)]

  lemma KnownIsLipo(i: nat)
    requires i < |LIPO|
    ensures KnownName(LIPO[i].cputype, LIPO[i].subtype) == Some(LIPO[i].name) && LIPO[i].subtype < 0x0100_0000
  {
  }

  /** Every documented pair bears the name that `lipo` gives it, whatever its feature flags. */
  lemma LipoNames(i: nat, flags: nat)
    requires i < |LIPO| && flags < 256
    ensures LIPO[i].subtype + flags * 0x0100_0000 < 0x1_0000_0000
    ensures ArchName(LIPO[i].cputype, LIPO[i].subtype + flags * 0x0100_0000) == LIPO[i].name
  {
    KnownIsLipo(i);
    var s: U32 := LIPO[i].subtype + flags * 0x0100_0000;
    assert Subtype(s) == LIPO[i].subtype;
  }

  function HexDigitValue(c: char): nat {
    if '0' <= c <= '9' then c as int - '0' as int else if 'a' <= c <= 'f' then c as int - 'a' as int + 10 else 0
  }

  function HexValue(s: string): nat {
    if s == "" then 0 else 16 * HexValue(s[..|s| - 1]) + HexDigitValue(s[|s| - 1])
  }

  lemma {:induction false} HexReadsBack(n: nat)
    ensures HexValue(Hex(n)) == n
  {
    if n >= 16 {
      HexReadsBack(n / 16);
      assert Hex(n)[..|Hex(n)| - 1] == Hex(n / 16);
    } else {
      assert Hex(n)[..0] == "";
    }
  }

  /** Any other pair is named by its two numbers in hexadecimal. */
  lemma OtherNames(c: U32, s: U32) returns (front: string, back: string)
    requires forall i :: 0 <= i < |LIPO| ==> LIPO[i].cputype != c || LIPO[i].subtype != s % 0x0100_0000
    ensures ArchName(c, s) == "cputype0x" + front + "-" + ("subtype0x" + back)
    ensures HexValue(front) == c && HexValue(back) == s
  {
    front, back := Hex(c), Hex(s);
    HexReadsBack(c);
    HexReadsBack(s);
    NotKnown(c, s % 0x0100_0000);
  }

  lemma NotKnown(c: U32, s: U32)
    requires forall i :: 0 <= i < |LIPO| ==> LIPO[i].cputype != c || LIPO[i].subtype != s
    ensures KnownName(c, s) == None
  {
    assert LIPO[0] == Lipo("i386", 7, 3) && LIPO[1] == Lipo("x86_64", 0x0100_0007, 3) && LIPO[2] == Lipo("x86_64h", 0x0100_0007, 8);
    assert LIPO[3] == Lipo("armv6", 12, 6) && LIPO[4] == Lipo("armv7", 12, 9) && LIPO[5] == Lipo("armv7s", 12, 11);
    assert LIPO[6] == Lipo("armv7k", 12, 12) && LIPO[7] == Lipo("arm64", 0x0100_000c, 0) && LIPO[8] == Lipo("arm64e", 0x0100_000c, 2);
    assert LIPO[9] == Lipo("arm64e.x1", 0x0100_000c, 12) && LIPO[10] == Lipo("arm64_32", 0x0200_000c, 0);
    assert LIPO[11] == Lipo("arm64_32", 0x0200_000c, 1) && LIPO[12] == Lipo("ppc", 18, 0) && LIPO[13] == Lipo("ppc64", 0x0100_0012, 0);
  }

  // ---- The parser ----

  function BeU32(bytes: seq<Byte>, at: nat): Option<U32> {
    if at + 4 <= |bytes| then Some(Word(bytes[at], bytes[at + 1], bytes[at + 2], bytes[at + 3])) else None
  }

  function Word(a: Byte, b: Byte, c: Byte, d: Byte): U32 {
    (((a as int) * 256 + b) * 256 + c) * 256 + d
  }

  function BeU64(bytes: seq<Byte>, at: nat): Option<U64> {
    var high, low := BeU32(bytes, at), BeU32(bytes, at + 4);
    if high.Some? && low.Some? then Some(high.value * 0x1_0000_0000 + low.value) else None
  }

  function ParseFatArch(header: seq<Byte>, at: nat, wide: bool): Option<FatArch> {
    var cputype, cpusubtype := BeU32(header, at), BeU32(header, at + 4);
    if cputype.None? || cpusubtype.None? then None
    else if wide then
      var offset, size := BeU64(header, at + 8), BeU64(header, at + 16);
      if offset.None? || size.None? then None else Some(FatArch(cputype.value, cpusubtype.value, offset.value, size.value))
    else
      var offset, size := BeU32(header, at + 8), BeU32(header, at + 12);
      if offset.None? || size.None? then None else Some(FatArch(cputype.value, cpusubtype.value, offset.value, size.value))
  }

  predicate Lists(slices: seq<FatSlice>, arch: string) {
    exists i :: 0 <= i < |slices| && slices[i].arch == arch
  }

  predicate InFile(a: FatArch, tableEnd: nat, fileLen: U64) {
    a.size != 0 && a.offset >= tableEnd && a.offset + a.size < 0x1_0000_0000_0000_0000 && a.offset + a.size <= fileLen
  }

  function NameOf(a: FatArch): string { ArchName(a.cputype, a.cpusubtype) }

  function SliceOf(a: FatArch): FatSlice { FatSlice(NameOf(a), a.offset, a.size) }

  /** What the table entries from `index` on do to the slices found so far. */
  function ParseEntries(header: seq<Byte>, fileLen: U64, wide: bool, count: nat, index: nat, slices: seq<FatSlice>): Parsed
    requires index <= count
    decreases count - index
  {
    if index == count then Slices(slices)
    else
      var a := ParseFatArch(header, TableEnd(index, wide), wide);
      if a.None? then Malformed(EntryTruncated(index + 1))
      else if !InFile(a.value, TableEnd(count, wide), fileLen) then Malformed(Outside(index + 1, NameOf(a.value)))
      else if Lists(slices, NameOf(a.value)) then Malformed(ListedTwice(NameOf(a.value)))
      else ParseEntries(header, fileLen, wide, count, index + 1, slices + [SliceOf(a.value)])
  }

  function Parse(header: seq<Byte>, fileLen: U64): Parsed {
    var magic, count := BeU32(header, 0), BeU32(header, 4);
    if magic.None? || (magic.value != FAT_MAGIC && magic.value != FAT_MAGIC_64) then NotFat
    else if count.None? || count.value == 0 || count.value >= JAVA_CLASS_MIN_MAJOR then NotFat
    else
      var wide := magic.value == FAT_MAGIC_64;
      if |header| < TableEnd(count.value, wide) then Malformed(TableTruncated(count.value))
      else ParseEntries(header, fileLen, wide, count.value, 0, [])
  }

  /** `parse_fat_header`. */
  method ParseFatHeader(header: seq<Byte>, fileLen: U64) returns (r: Parsed)
    ensures r == Parse(header, fileLen)
  {
    var magic := BeU32(header, 0);
    if magic.None? {
      return NotFat;
    }
    if magic.value != FAT_MAGIC && magic.value != FAT_MAGIC_64 {
      return NotFat;
    }
    var count := BeU32(header, 4);
    if count.None? || count.value == 0 || count.value >= JAVA_CLASS_MIN_MAJOR {
      return NotFat;
    }
    if |header| < TableEnd(count.value, magic.value == FAT_MAGIC_64) {
      return Malformed(TableTruncated(count.value));
    }
    r := ParseTable(header, fileLen, magic.value == FAT_MAGIC_64, count.value);
  }

  /** The loop of `parse_fat_header` over the slice table. */
  method ParseTable(header: seq<Byte>, fileLen: U64, wide: bool, count: nat) returns (r: Parsed)
    ensures r == ParseEntries(header, fileLen, wide, count, 0, [])
  {
    var slices := [];
    var index := 0;
    while index < count
      invariant 0 <= index <= count
      invariant ParseEntries(header, fileLen, wide, count, index, slices) == ParseEntries(header, fileLen, wide, count, 0, [])
    {
      var a := ParseFatArch(header, TableEnd(index, wide), wide);
      if a.None? {
        return Malformed(EntryTruncated(index + 1));
      }
      var arch := NameOf(a.value);
      if !InFile(a.value, TableEnd(count, wide), fileLen) {
        return Malformed(Outside(index + 1, arch));
      }
      if Lists(slices, arch) {
        return Malformed(ListedTwice(arch));
      }
      slices := slices + [SliceOf(a.value)];
      index := index + 1;
    }
    r := Slices(slices);
  }

  // ---- Only the bounded prefix matters ----

  lemma WordPrefix(header: seq<Byte>, prefix: seq<Byte>, at: nat)
    requires prefix <= header && at + 4 <= |prefix|
    ensures BeU32(prefix, at).Some? && BeU32(header, at) == BeU32(prefix, at)
  {
    assert header[..|prefix|] == prefix;
    assert forall k :: 0 <= k < |prefix| ==> header[k] == prefix[k];
  }

  lemma EntryPrefix(header: seq<Byte>, prefix: seq<Byte>, wide: bool, at: nat)
    requires prefix <= header && at + EntrySize(wide) <= |prefix|
    ensures ParseFatArch(prefix, at, wide).Some? && ParseFatArch(header, at, wide) == ParseFatArch(prefix, at, wide)
  {
    WordPrefix(header, prefix, at);
    WordPrefix(header, prefix, at + 4);
    WordPrefix(header, prefix, at + 8);
    WordPrefix(header, prefix, at + 12);
    if wide {
      WordPrefix(header, prefix, at + 16);
      WordPrefix(header, prefix, at + 20);
    }
  }

  /** The entries of both texts are the same, and complete. */
  ghost predicate SameEntries(header: seq<Byte>, prefix: seq<Byte>, wide: bool, count: nat) {
    forall i :: 0 <= i < count ==> SameEntry(header, prefix, wide, i)
  }

  ghost predicate SameEntry(header: seq<Byte>, prefix: seq<Byte>, wide: bool, i: nat) {
    var a, b := ParseFatArch(header, TableEnd(i, wide), wide), ParseFatArch(prefix, TableEnd(i, wide), wide);
    a.Some? && a == b
  }

  lemma TablePrefix(header: seq<Byte>, prefix: seq<Byte>, wide: bool, count: nat)
    requires prefix <= header && TableEnd(count, wide) <= |prefix|
    ensures SameEntries(header, prefix, wide, count)
  {
    forall i | 0 <= i < count ensures SameEntry(header, prefix, wide, i) { EntryPrefix(header, prefix, wide, TableEnd(i, wide)); }
  }

  lemma {:induction false} EntriesSame(header: seq<Byte>, prefix: seq<Byte>, fileLen: U64, wide: bool, count: nat, index: nat, slices: seq<FatSlice>)
    requires index <= count && SameEntries(header, prefix, wide, count)
    ensures ParseEntries(prefix, fileLen, wide, count, index, slices) == ParseEntries(header, fileLen, wide, count, index, slices)
    decreases count - index
  {
    if index < count {
      assert SameEntry(header, prefix, wide, index);
      var a := ParseFatArch(header, TableEnd(index, wide), wide);
      EntriesSame(header, prefix, fileLen, wide, count, index + 1, slices + [SliceOf(a.value)]);
    }
  }

  lemma {:induction false} EntriesComplete(header: seq<Byte>, fileLen: U64, wide: bool, count: nat, index: nat, slices: seq<FatSlice>)
    requires index <= count && SameEntries(header, header, wide, count)
    ensures var r := ParseEntries(header, fileLen, wide, count, index, slices); !r.Malformed? || !r.error.EntryTruncated?
    decreases count - index
  {
    if index < count {
      assert SameEntry(header, header, wide, index);
      var a := ParseFatArch(header, TableEnd(index, wide), wide);
      EntriesComplete(header, fileLen, wide, count, index + 1, slices + [SliceOf(a.value)]);
    }
  }

  /** Parsing the first 1448 bytes of a file gives the result of parsing all of it. */
  lemma PrefixSuffices(file: seq<Byte>, fileLen: U64)
    ensures var prefix := if |file| <= FAT_HEADER_READ_LIMIT then file else file[..FAT_HEADER_READ_LIMIT];
            Parse(prefix, fileLen) == Parse(file, fileLen)
  {
    if |file| > FAT_HEADER_READ_LIMIT {
      var prefix := file[..FAT_HEADER_READ_LIMIT];
      var magic, count := BeU32(file, 0).value, BeU32(file, 4).value;
      assert BeU32(prefix, 0) == Some(magic) && BeU32(prefix, 4) == Some(count);
      if (magic == FAT_MAGIC || magic == FAT_MAGIC_64) && 0 < count < JAVA_CLASS_MIN_MAJOR {
        TablePrefix(file, prefix, magic == FAT_MAGIC_64, count);
        EntriesSame(file, prefix, fileLen, magic == FAT_MAGIC_64, count, 0, []);
      }
    }
  }

  /** The error for a truncated entry can never be reported. */
  lemma EntryTruncationUnreachable(header: seq<Byte>, fileLen: U64)
    ensures !Parse(header, fileLen).Malformed? || !Parse(header, fileLen).error.EntryTruncated?
  {
    var magic, count := BeU32(header, 0), BeU32(header, 4);
    if magic.Some? && count.Some? && 0 < count.value < JAVA_CLASS_MIN_MAJOR
       && |header| >= TableEnd(count.value, magic.value == FAT_MAGIC_64) {
      TablePrefix(header, header, magic.value == FAT_MAGIC_64, count.value);
      EntriesComplete(header, fileLen, magic.value == FAT_MAGIC_64, count.value, 0, []);
    }
  }

  /** The header is taken for a universal file exactly by its first eight bytes: one
      of the two magics and a count of 1 to 44; it is refused as truncated exactly when
      it then ends inside the table. */
  lemma RecognizedByBytes(header: seq<Byte>, fileLen: U64)
    ensures var fat := && |header| >= 8 && header[0] == 0xca && header[1] == 0xfe && header[2] == 0xba
                       && (header[3] == 0xbe || header[3] == 0xbf)
                       && header[4] == 0 && header[5] == 0 && header[6] == 0 && 1 <= header[7] <= 44;
            && (Parse(header, fileLen) == NotFat <==> !fat)
            && (fat ==>
                  (Parse(header, fileLen) == Malformed(TableTruncated(header[7])) <==>
                     |header| < 8 + (header[7] as int) * (if header[3] == 0xbf then 32 else 20)))
  {
    if |header| >= 8 {
      var magic, count := BeU32(header, 0).value, BeU32(header, 4).value;
      MagicBytes(header);
      if (magic == FAT_MAGIC || magic == FAT_MAGIC_64) && 0 < count < JAVA_CLASS_MIN_MAJOR {
        var wide := magic == FAT_MAGIC_64;
        if TableEnd(count, wide) <= |header| { EntriesNeverForeign(header, fileLen, wide, count, 0, []); }
      }
    }
  }

  lemma MagicBytes(header: seq<Byte>)
    requires |header| >= 8
    ensures BeU32(header, 0) == Some(FAT_MAGIC) <==>
            header[0] == 0xca && header[1] == 0xfe && header[2] == 0xba && header[3] == 0xbe
    ensures BeU32(header, 0) == Some(FAT_MAGIC_64) <==>
            header[0] == 0xca && header[1] == 0xfe && header[2] == 0xba && header[3] == 0xbf
    ensures 1 <= BeU32(header, 4).value <= 44 <==>
            header[4] == 0 && header[5] == 0 && header[6] == 0 && 1 <= header[7] <= 44
    ensures 1 <= BeU32(header, 4).value <= 44 ==> BeU32(header, 4).value == header[7]
  {
  }

  lemma {:induction false} EntriesNeverForeign(header: seq<Byte>, fileLen: U64, wide: bool, count: nat, index: nat, slices: seq<FatSlice>)
    requires index <= count
    ensures var r := ParseEntries(header, fileLen, wide, count, index, slices);
            !r.NotFat? && !(r.Malformed? && r.error.TableTruncated?)
    decreases count - index
  {
    if index < count {
      var a := ParseFatArch(header, TableEnd(index, wide), wide);
      if a.Some? { EntriesNeverForeign(header, fileLen, wide, count, index + 1, slices + [SliceOf(a.value)]); }
    }
  }

  // ---- What an accepted table guarantees ----

  ghost predicate Distinct(slices: seq<FatSlice>) {
    forall i, j :: 0 <= i < j < |slices| ==> slices[i].arch != slices[j].arch
  }

  ghost predicate SliceOk(slice: FatSlice, tableEnd: nat, fileLen: U64) {
    slice.size > 0 && tableEnd <= slice.offset && slice.offset + slice.size <= fileLen && IsLower(slice.arch)
  }

  ghost predicate TableOk(slices: seq<FatSlice>, tableEnd: nat, fileLen: U64) {
    Distinct(slices) && forall i :: 0 <= i < |slices| ==> SliceOk(slices[i], tableEnd, fileLen)
  }

  lemma {:induction false} EntriesAccepted(header: seq<Byte>, fileLen: U64, wide: bool, count: nat, index: nat, slices: seq<FatSlice>)
    requires index <= count && |slices| == index && TableOk(slices, TableEnd(count, wide), fileLen)
    requires ParseEntries(header, fileLen, wide, count, index, slices).Slices?
    ensures var r := ParseEntries(header, fileLen, wide, count, index, slices).slices;
            |r| == count && TableOk(r, TableEnd(count, wide), fileLen)
    decreases count - index
  {
    if index < count {
      var a := ParseFatArch(header, TableEnd(index, wide), wide).value;
      ArchNameIsLower(a.cputype, a.cpusubtype);
      EntriesAccepted(header, fileLen, wide, count, index + 1, slices + [SliceOf(a)]);
    }
  }

  /** Every accepted table has 1 to 44 nonempty slices behind the table and inside
      the file, with distinct lowercase names. */
  lemma AcceptedTable(header: seq<Byte>, fileLen: U64)
    requires Parse(header, fileLen).Slices?
    ensures var slices, wide := Parse(header, fileLen).slices, BeU32(header, 0) == Some(FAT_MAGIC_64);
            && 1 <= |slices| <= 44 && BeU32(header, 4) == Some(|slices|)
            && TableOk(slices, TableEnd(|slices|, wide), fileLen)
  {
    var wide, count := BeU32(header, 0).value == FAT_MAGIC_64, BeU32(header, 4).value;
    EntriesAccepted(header, fileLen, wide, count, 0, []);
  }

  // ---- The encoder ----

  function EncodeU32(n: U32): (r: seq<Byte>)
    ensures |r| == 4
  {
    [n / 0x100_0000, n / 0x1_0000 % 0x100, n / 0x100 % 0x100, n % 0x100]
  }

  function EncodeU64(n: U64): (r: seq<Byte>)
    ensures |r| == 8
  {
    EncodeU32(n / 0x1_0000_0000) + EncodeU32(n % 0x1_0000_0000)
  }

  predicate Fits(a: FatArch, wide: bool) {
    wide || (a.offset < 0x1_0000_0000 && a.size < 0x1_0000_0000)
  }

  /** A `fat_arch` or `fat_arch_64` entry; alignment and reserved fields are arbitrary. */
  function EncodeArch(a: FatArch, wide: bool, align: U32, reserved: U32): (r: seq<Byte>)
    requires Fits(a, wide)
    ensures |r| == EntrySize(wide)
  {
    EncodeU32(a.cputype) + EncodeU32(a.cpusubtype)
    + (if wide then EncodeU64(a.offset) + EncodeU64(a.size) + EncodeU32(align) + EncodeU32(reserved)
       else EncodeU32(a.offset) + EncodeU32(a.size) + EncodeU32(align))
  }

  function EncodeTable(archs: seq<FatArch>, wide: bool, align: U32, reserved: U32): (r: seq<Byte>)
    requires forall i :: 0 <= i < |archs| ==> Fits(archs[i], wide)
    ensures |r| == Span(|archs|, wide)
  {
    if archs == [] then []
    else
      var n := |archs| - 1;
      EncodeTable(archs[..n], wide, align, reserved) + EncodeArch(archs[n], wide, align, reserved)
  }

  function Encode(archs: seq<FatArch>, wide: bool, align: U32, reserved: U32): seq<Byte>
    requires |archs| < 0x1_0000_0000 && forall i :: 0 <= i < |archs| ==> Fits(archs[i], wide)
  {
    EncodeU32(if wide then FAT_MAGIC_64 else FAT_MAGIC) + EncodeU32(|archs|) + EncodeTable(archs, wide, align, reserved)
  }

  lemma U32RoundTrip(n: U32)
    ensures ((n / 0x100_0000 * 256 + n / 0x1_0000 % 0x100) * 256 + n / 0x100 % 0x100) * 256 + n % 0x100 == n
  {
  }

  lemma ReadU32(bytes: seq<Byte>, at: nat, n: U32)
    requires at + 4 <= |bytes| && bytes[at..at + 4] == EncodeU32(n)
    ensures BeU32(bytes, at) == Some(n)
  {
    var field := bytes[at..at + 4];
    assert bytes[at] == field[0] && bytes[at + 1] == field[1] && bytes[at + 2] == field[2] && bytes[at + 3] == field[3];
    U32RoundTrip(n);
  }

  lemma Field(bytes: seq<Byte>, at: nat, e: seq<Byte>, i: nat, j: nat)
    requires at + |e| <= |bytes| && bytes[at..at + |e|] == e && i <= j <= |e|
    ensures bytes[at + i..at + j] == e[i..j]
  {
    var part := bytes[at..at + |e|];
    forall k | i <= k < j ensures bytes[at + k] == e[k] { assert part[k] == e[k]; }
  }

  lemma U64Split(n: U64)
    ensures n == n / 0x1_0000_0000 * 0x1_0000_0000 + n % 0x1_0000_0000
  {
  }

  lemma ReadPair(bytes: seq<Byte>, at: nat, high: seq<Byte>, low: seq<Byte>)
    requires |high| == 4 && |low| == 4 && at + 8 <= |bytes| && bytes[at..at + 8] == high + low
    ensures bytes[at..at + 4] == high && bytes[at + 4..at + 8] == low
  {
    assert (high + low)[0..4] == high && (high + low)[4..8] == low;
    Field(bytes, at, high + low, 0, 4);
    Field(bytes, at, high + low, 4, 8);
  }

  lemma JoinU64(bytes: seq<Byte>, at: nat, n: U64, high: U32, low: U32)
    requires BeU32(bytes, at) == Some(high) && BeU32(bytes, at + 4) == Some(low) && n == high * 0x1_0000_0000 + low
    ensures BeU64(bytes, at) == Some(n)
  {
  }

  lemma ReadU64(bytes: seq<Byte>, at: nat, n: U64)
    requires at + 8 <= |bytes| && bytes[at..at + 8] == EncodeU64(n)
    ensures BeU64(bytes, at) == Some(n)
  {
    var high: U32, low: U32 := n / 0x1_0000_0000, n % 0x1_0000_0000;
    U64Split(n);
    ReadPair(bytes, at, EncodeU32(high), EncodeU32(low));
    ReadU32(bytes, at, high);
    ReadU32(bytes, at + 4, low);
    JoinU64(bytes, at, n, high, low);
  }

  lemma ReadArch(bytes: seq<Byte>, at: nat, a: FatArch, wide: bool, align: U32, reserved: U32)
    requires Fits(a, wide) && at + EntrySize(wide) <= |bytes|
    requires bytes[at..at + EntrySize(wide)] == EncodeArch(a, wide, align, reserved)
    ensures ParseFatArch(bytes, at, wide) == Some(a)
  {
    var e := EncodeArch(a, wide, align, reserved);
    assert e[0..4] == EncodeU32(a.cputype) && e[4..8] == EncodeU32(a.cpusubtype);
    Field(bytes, at, e, 0, 4);
    Field(bytes, at, e, 4, 8);
    ReadU32(bytes, at, a.cputype);
    ReadU32(bytes, at + 4, a.cpusubtype);
    if wide {
      assert e[8..16] == EncodeU64(a.offset) && e[16..24] == EncodeU64(a.size);
      Field(bytes, at, e, 8, 16);
      Field(bytes, at, e, 16, 24);
      ReadU64(bytes, at + 8, a.offset);
      ReadU64(bytes, at + 16, a.size);
    } else {
      assert e[8..12] == EncodeU32(a.offset) && e[12..16] == EncodeU32(a.size);
      Field(bytes, at, e, 8, 12);
      Field(bytes, at, e, 12, 16);
      ReadU32(bytes, at + 8, a.offset);
      ReadU32(bytes, at + 12, a.size);
    }
  }

  lemma {:induction false} TableEntry(archs: seq<FatArch>, wide: bool, align: U32, reserved: U32, i: nat, at: nat)
    requires i < |archs| && (forall k :: 0 <= k < |archs| ==> Fits(archs[k], wide)) && at == Span(i, wide)
    ensures at + EntrySize(wide) <= |EncodeTable(archs, wide, align, reserved)|
    ensures EncodeTable(archs, wide, align, reserved)[at..at + EntrySize(wide)] == EncodeArch(archs[i], wide, align, reserved)
  {
    var n := |archs| - 1;
    var front, last := EncodeTable(archs[..n], wide, align, reserved), EncodeArch(archs[n], wide, align, reserved);
    if i < n {
      TableEntry(archs[..n], wide, align, reserved, i, at);
      assert (front + last)[at..at + EntrySize(wide)] == front[at..at + EntrySize(wide)];
    } else {
      assert at == |front| && |front + last| == at + EntrySize(wide);
      assert (front + last)[at..at + EntrySize(wide)] == last;
    }
  }

  function AllSlices(archs: seq<FatArch>): seq<FatSlice> {
    seq(|archs|, i requires 0 <= i < |archs| => SliceOf(archs[i]))
  }

  /** One of the first `index` slices bears the name. */
  predicate Named(archs: seq<FatArch>, index: nat, name: string)
    requires index <= |archs|
  {
    exists i :: 0 <= i < index && NameOf(archs[i]) == name
  }

  /** The outcome of validating a list of slices, said without any bytes. */
  function Validate(archs: seq<FatArch>, tableEnd: nat, fileLen: U64, index: nat): Parsed
    requires index <= |archs|
    decreases |archs| - index
  {
    if index == |archs| then Slices(AllSlices(archs))
    else if !InFile(archs[index], tableEnd, fileLen) then Malformed(Outside(index + 1, NameOf(archs[index])))
    else if Named(archs, index, NameOf(archs[index])) then Malformed(ListedTwice(NameOf(archs[index])))
    else Validate(archs, tableEnd, fileLen, index + 1)
  }

  lemma ListsNames(slices: seq<FatSlice>, archs: seq<FatArch>, index: nat, name: string)
    requires |slices| == index <= |archs| && forall i :: 0 <= i < index ==> slices[i] == SliceOf(archs[i])
    ensures Lists(slices, name) <==> Named(archs, index, name)
  {
    if Lists(slices, name) {
      var i :| 0 <= i < |slices| && slices[i].arch == name;
      assert NameOf(archs[i]) == name;
    }
  }

  lemma {:induction false} EntriesValidate(header: seq<Byte>, fileLen: U64, wide: bool, archs: seq<FatArch>, index: nat, slices: seq<FatSlice>)
    requires index <= |archs| && |slices| == index && forall i :: 0 <= i < index ==> slices[i] == SliceOf(archs[i])
    requires forall i :: index <= i < |archs| ==> ParseFatArch(header, TableEnd(i, wide), wide) == Some(archs[i])
    ensures ParseEntries(header, fileLen, wide, |archs|, index, slices) == Validate(archs, TableEnd(|archs|, wide), fileLen, index)
    decreases |archs| - index
  {
    if index == |archs| {
      assert slices == AllSlices(archs);
    } else {
      var a := archs[index];
      ListsNames(slices, archs, index, NameOf(a));
      assert ParseFatArch(header, TableEnd(index, wide), wide) == Some(a);
      if InFile(a, TableEnd(|archs|, wide), fileLen) && !Named(archs, index, NameOf(a)) {
        EntriesValidate(header, fileLen, wide, archs, index + 1, slices + [SliceOf(a)]);
      }
    }
  }

  lemma EncodedParts(archs: seq<FatArch>, wide: bool, align: U32, reserved: U32, rest: seq<Byte>)
    requires |archs| <= 44 && forall k :: 0 <= k < |archs| ==> Fits(archs[k], wide)
    ensures var table, bytes := EncodeTable(archs, wide, align, reserved), Encode(archs, wide, align, reserved) + rest;
            && |table| == Span(|archs|, wide) && 8 + |table| <= |bytes| && bytes[8..8 + |table|] == table
            && bytes[0..4] == EncodeU32(if wide then FAT_MAGIC_64 else FAT_MAGIC) && bytes[4..8] == EncodeU32(|archs|)
  {
    var table := EncodeTable(archs, wide, align, reserved);
    var magic, count := EncodeU32(if wide then FAT_MAGIC_64 else FAT_MAGIC), EncodeU32(|archs|);
    assert Encode(archs, wide, align, reserved) + rest == magic + count + table + rest;
  }

  lemma EncodedEntry(archs: seq<FatArch>, wide: bool, align: U32, reserved: U32, rest: seq<Byte>, i: nat, at: nat)
    requires i < |archs| <= 44 && (forall k :: 0 <= k < |archs| ==> Fits(archs[k], wide)) && at == Span(i, wide)
    ensures ParseFatArch(Encode(archs, wide, align, reserved) + rest, 8 + at, wide) == Some(archs[i])
  {
    var table, bytes := EncodeTable(archs, wide, align, reserved), Encode(archs, wide, align, reserved) + rest;
    TableEntry(archs, wide, align, reserved, i, at);
    EncodedParts(archs, wide, align, reserved, rest);
    Field(bytes, 8, table, at, at + EntrySize(wide));
    ReadArch(bytes, 8 + at, archs[i], wide, align, reserved);
  }

  /** Parsing inverts encoding, for both widths, any alignment fields and any
      bytes after the table: the parser sees exactly the encoded slices. */
  lemma ParseEncode(archs: seq<FatArch>, wide: bool, align: U32, reserved: U32, rest: seq<Byte>, fileLen: U64)
    requires 1 <= |archs| <= 44 && forall i :: 0 <= i < |archs| ==> Fits(archs[i], wide)
    ensures Parse(Encode(archs, wide, align, reserved) + rest, fileLen) ==
            Validate(archs, TableEnd(|archs|, wide), fileLen, 0)
  {
    var bytes := Encode(archs, wide, align, reserved) + rest;
    EncodedHeader(archs, wide, align, reserved, rest);
    forall i | 0 <= i < |archs| ensures ParseFatArch(bytes, TableEnd(i, wide), wide) == Some(archs[i]) {
      EncodedEntry(archs, wide, align, reserved, rest, i, Span(i, wide));
    }
    EntriesValidate(bytes, fileLen, wide, archs, 0, []);
    KnownHeader(bytes, fileLen, wide, |archs|);
  }

  lemma EncodedHeader(archs: seq<FatArch>, wide: bool, align: U32, reserved: U32, rest: seq<Byte>)
    requires |archs| <= 44 && forall k :: 0 <= k < |archs| ==> Fits(archs[k], wide)
    ensures var bytes := Encode(archs, wide, align, reserved) + rest;
            && BeU32(bytes, 0) == Some(if wide then FAT_MAGIC_64 else FAT_MAGIC) && BeU32(bytes, 4) == Some(|archs|)
            && TableEnd(|archs|, wide) <= |bytes|
  {
    var bytes := Encode(archs, wide, align, reserved) + rest;
    EncodedParts(archs, wide, align, reserved, rest);
    ReadU32(bytes, 0, if wide then FAT_MAGIC_64 else FAT_MAGIC);
    ReadU32(bytes, 4, |archs|);
  }

  lemma KnownHeader(bytes: seq<Byte>, fileLen: U64, wide: bool, count: nat)
    requires 1 <= count <= 44 && BeU32(bytes, 0) == Some(if wide then FAT_MAGIC_64 else FAT_MAGIC) && BeU32(bytes, 4) == Some(count)
    requires TableEnd(count, wide) <= |bytes|
    ensures Parse(bytes, fileLen) == ParseEntries(bytes, fileLen, wide, count, 0, [])
  {
  }

  /** Slice `j` lies in the file and repeats no earlier name. */
  predicate Acceptable(archs: seq<FatArch>, tableEnd: nat, fileLen: U64, j: nat)
    requires j < |archs|
  {
    InFile(archs[j], tableEnd, fileLen) && !Named(archs, j, NameOf(archs[j]))
  }

  /** Validation accepts exactly the tables whose slices are all acceptable. */
  lemma {:induction false} ValidateAccepts(archs: seq<FatArch>, tableEnd: nat, fileLen: U64, index: nat)
    requires index <= |archs|
    ensures Validate(archs, tableEnd, fileLen, index).Slices? <==>
            forall j :: index <= j < |archs| ==> Acceptable(archs, tableEnd, fileLen, j)
    ensures Validate(archs, tableEnd, fileLen, index).Slices? ==>
            Validate(archs, tableEnd, fileLen, index).slices == AllSlices(archs)
    decreases |archs| - index
  {
    if index < |archs| {
      ValidateAccepts(archs, tableEnd, fileLen, index + 1);
      assert Validate(archs, tableEnd, fileLen, index).Slices? <==>
             Acceptable(archs, tableEnd, fileLen, index) && Validate(archs, tableEnd, fileLen, index + 1).Slices?;
    }
  }

  lemma AcceptableMeans(archs: seq<FatArch>, tableEnd: nat, fileLen: U64)
    ensures (forall j :: 0 <= j < |archs| ==> Acceptable(archs, tableEnd, fileLen, j)) <==>
            && (forall j :: 0 <= j < |archs| ==> InFile(archs[j], tableEnd, fileLen))
            && (forall i, j :: 0 <= i < j < |archs| ==> NameOf(archs[i]) != NameOf(archs[j]))
  {
    if forall j :: 0 <= j < |archs| ==> Acceptable(archs, tableEnd, fileLen, j) {
      forall i, j | 0 <= i < j < |archs| ensures NameOf(archs[i]) != NameOf(archs[j]) {
        assert Acceptable(archs, tableEnd, fileLen, j);
      }
      forall j | 0 <= j < |archs| ensures InFile(archs[j], tableEnd, fileLen) { assert Acceptable(archs, tableEnd, fileLen, j); }
    }
  }

  lemma InFileMeans(a: FatArch, tableEnd: nat, fileLen: U64)
    ensures InFile(a, tableEnd, fileLen) <==> a.size > 0 && tableEnd <= a.offset && a.offset + a.size <= fileLen
  {
  }

  /** An encoded table is accepted, as the very slices it was made of, exactly when
      they are not empty, lie behind the table and in the file, under different names. */
  lemma EncodedTableAccepted(archs: seq<FatArch>, wide: bool, align: U32, reserved: U32, rest: seq<Byte>, fileLen: U64)
    requires 1 <= |archs| <= 44 && forall i :: 0 <= i < |archs| ==> Fits(archs[i], wide)
    ensures var table := Encode(archs, wide, align, reserved);
            var r := Parse(table + rest, fileLen);
            && (r == Slices(AllSlices(archs)) || r.Malformed?)
            && (r.Slices? <==>
                  && (forall i :: 0 <= i < |archs| ==>
                        archs[i].size > 0 && |table| <= archs[i].offset && archs[i].offset + archs[i].size <= fileLen)
                  && (forall i, j :: 0 <= i < j < |archs| ==> NameOf(archs[i]) != NameOf(archs[j])))
  {
    var end := TableEnd(|archs|, wide);
    ParseEncode(archs, wide, align, reserved, rest, fileLen);
    ValidateAccepts(archs, end, fileLen, 0);
    AcceptableMeans(archs, end, fileLen);
    ValidateNeverForeign(archs, end, fileLen, 0);
    forall i | 0 <= i < |archs|
      ensures InFile(archs[i], end, fileLen) <==>
              archs[i].size > 0 && end <= archs[i].offset && archs[i].offset + archs[i].size <= fileLen
    {
      InFileMeans(archs[i], end, fileLen);
    }
  }

  lemma {:induction false} ValidateNeverForeign(archs: seq<FatArch>, tableEnd: nat, fileLen: U64, index: nat)
    requires index <= |archs|
    ensures !Validate(archs, tableEnd, fileLen, index).NotFat?
    decreases |archs| - index
  {
    if index < |archs| { ValidateNeverForeign(archs, tableEnd, fileLen, index + 1); }
  }

  // ---- Selecting a slice by name ----

  predicate IsWhite(c: char) {
    var n := c as int;
    9 <= n <= 13 || n == 0x20 || n == 0x85 || n == 0xa0 || n == 0x1680 || 0x2000 <= n <= 0x200a
    || n == 0x2028 || n == 0x2029 || n == 0x202f || n == 0x205f || n == 0x3000
  }

  function Trim(s: string): string {
    if s != [] && IsWhite(s[0]) then Trim(s[1..])
    else if s != [] && IsWhite(s[|s| - 1]) then Trim(s[..|s| - 1])
    else s
  }

  /** `eq_ignore_ascii_case`. */
  predicate SameName(a: string, b: string) {
    Lower(a) == Lower(b)
  }

  function SelectSlice(slices: seq<FatSlice>, arch: string): Option<FatSlice> {
    if slices == [] then None
    else if SameName(slices[0].arch, Trim(arch)) then Some(slices[0])
    else SelectSlice(slices[1..], arch)
  }

  lemma LowerOfLower(s: string)
    requires IsLower(s)
    ensures Lower(s) == s
  {
  }

  lemma {:induction false} SelectFinds(slices: seq<FatSlice>, arch: string)
    requires forall i :: 0 <= i < |slices| ==> IsLower(slices[i].arch)
    ensures SelectSlice(slices, arch).None? <==> !Lists(slices, Lower(Trim(arch)))
    ensures SelectSlice(slices, arch).Some? ==>
              SelectSlice(slices, arch).value in slices && SelectSlice(slices, arch).value.arch == Lower(Trim(arch))
  {
    if slices != [] {
      LowerOfLower(slices[0].arch);
      SelectFinds(slices[1..], arch);
      if Lists(slices, Lower(Trim(arch))) && slices[0].arch != Lower(Trim(arch)) {
        var i :| 0 <= i < |slices| && slices[i].arch == Lower(Trim(arch));
        assert slices[1..][i - 1] == slices[i];
      }
    }
  }

  /** In an accepted table a name selects the one slice that bears it in lower
      case, and nothing exactly when no slice does. */
  lemma SelectionIsExact(header: seq<Byte>, fileLen: U64, arch: string)
    requires Parse(header, fileLen).Slices?
    ensures var slices := Parse(header, fileLen).slices;
            && (SelectSlice(slices, arch) == None <==> !Lists(slices, Lower(Trim(arch))))
            && (forall i :: 0 <= i < |slices| ==>
                  (SelectSlice(slices, arch) == Some(slices[i]) <==> slices[i].arch == Lower(Trim(arch))))
  {
    AcceptedTable(header, fileLen);
    var slices := Parse(header, fileLen).slices;
    forall k | 0 <= k < |slices| ensures IsLower(slices[k].arch) {
      assert SliceOk(slices[k], TableEnd(|slices|, BeU32(header, 0) == Some(FAT_MAGIC_64)), fileLen);
    }
    SelectFinds(slices, arch);
  }

  // ---- Selecting an architecture ----

  predicate AllWhite(s: string) {
    forall i :: 0 <= i < |s| ==> IsWhite(s[i])
  }

  lemma AddFront(c: char, s: string, front: string, middle: string, back: string)
    requires s == front + middle + back && AllWhite(front) && IsWhite(c)
    ensures [c] + s == ([c] + front) + middle + back && AllWhite([c] + front)
  {
  }

  lemma AddBack(c: char, s: string, front: string, middle: string, back: string)
    requires s == front + middle + back && AllWhite(back) && IsWhite(c)
    ensures s + [c] == front + middle + (back + [c]) && AllWhite(back + [c])
  {
  }

  /** Trimming removes white space at both ends and nothing else. */
  lemma {:induction false} TrimSplits(s: string) returns (front: string, back: string)
    ensures s == front + Trim(s) + back && AllWhite(front) && AllWhite(back)
    ensures Trim(s) == "" || (!IsWhite(Trim(s)[0]) && !IsWhite(Trim(s)[|Trim(s)| - 1]))
  {
    if s != [] && IsWhite(s[0]) {
      front, back := TrimSplits(s[1..]);
      AddFront(s[0], s[1..], front, Trim(s), back);
      front := [s[0]] + front;
    } else if s != [] && IsWhite(s[|s| - 1]) {
      front, back := TrimSplits(s[..|s| - 1]);
      AddBack(s[|s| - 1], s[..|s| - 1], front, Trim(s), back);
      back := back + [s[|s| - 1]];
    } else {
      front, back := "", "";
    }
  }

  /** The entry has the architecture of row `i` of the table. */
  predicate Has(a: FatArch, i: nat)
    requires i < |LIPO|
  {
    && a.cputype == LIPO[i].cputype
    && (|| a.cpusubtype % 0x0100_0000 == LIPO[i].subtype
        || (a.cputype == 0x0200_000c && a.cpusubtype % 0x0100_0000 <= 1 && LIPO[i].subtype <= 1))
  }

  lemma NamedLipo(a: FatArch, i: nat)
    requires i < |LIPO|
    ensures NameOf(a) == LIPO[i].name <==> Has(a, i)
  {
    LipoNames(i, 0);
    if NameOf(a) == LIPO[i].name {
      NamesTellArchitectures(a.cputype, a.cpusubtype, LIPO[i].cputype, LIPO[i].subtype);
    }
    if Has(a, i) {
      var flags := a.cpusubtype / 0x0100_0000;
      KnownIsLipo(10);
      KnownIsLipo(11);
      if a.cpusubtype % 0x0100_0000 == LIPO[i].subtype {
        LipoNames(i, flags);
      } else {
        LipoNames(10 + a.cpusubtype % 0x0100_0000, flags);
        assert LIPO[i].name == "arm64_32" by { SharedName(i); }
        assert LIPO[10].name == "arm64_32" && LIPO[11].name == "arm64_32";
      }
    }
  }

  lemma SharedName(i: nat)
    requires i < |LIPO| && LIPO[i].cputype == 0x0200_000c
    ensures LIPO[i].name == "arm64_32"
  {
  }

  /** Asking for a documented name, in any case and with white space around it, selects
      from an accepted table exactly the slice of the entry with that CPU type and
      subtype, whatever its feature flags, and nothing when no entry has them. */
  lemma SelectsArchitecture(archs: seq<FatArch>, wide: bool, align: U32, reserved: U32, rest: seq<Byte>, fileLen: U64, arch: string, i: nat)
    requires 1 <= |archs| <= 44 && forall k :: 0 <= k < |archs| ==> Fits(archs[k], wide)
    requires Parse(Encode(archs, wide, align, reserved) + rest, fileLen).Slices?
    requires i < |LIPO| && Lower(Trim(arch)) == LIPO[i].name
    ensures var r := SelectSlice(Parse(Encode(archs, wide, align, reserved) + rest, fileLen).slices, arch);
            && (forall k :: 0 <= k < |archs| ==> (r == Some(FatSlice(LIPO[i].name, archs[k].offset, archs[k].size)) <== Has(archs[k], i)))
            && (r == None <==> forall k :: 0 <= k < |archs| ==> !Has(archs[k], i))
  {
    var header := Encode(archs, wide, align, reserved) + rest;
    EncodedTableAccepted(archs, wide, align, reserved, rest, fileLen);
    SelectionIsExact(header, fileLen, arch);
    var slices := Parse(header, fileLen).slices;
    forall k | 0 <= k < |archs| ensures slices[k].arch == LIPO[i].name <==> Has(archs[k], i) { NamedLipo(archs[k], i); }
  }

  /** Each documented name asks for itself. */
  lemma NameAsksForItself(i: nat)
    requires i < |LIPO|
    ensures Lower(Trim(LIPO[i].name)) == LIPO[i].name
  {
    var n := LIPO[i].name;
    LipoNames(i, 0);
    ArchNameIsLower(LIPO[i].cputype, LIPO[i].subtype);
    LowerOfLower(n);
    NotWhiteAtEnds(i);
  }

  lemma NotWhiteAtEnds(i: nat)
    requires i < |LIPO|
    ensures LIPO[i].name != "" && !IsWhite(LIPO[i].name[0]) && !IsWhite(LIPO[i].name[|LIPO[i].name| - 1])
  {
  }
}
