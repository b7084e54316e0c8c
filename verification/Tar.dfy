/**
 * The SDK's tar writer, read back by a reader that follows the ustar and pax
 * interchange formats of POSIX.1-2001. Paths are their UTF-8 bytes.
 */
module Tar {
  import opened Utf8

  const BLOCK_SIZE: nat := 512
  const USTAR_NAME_BYTES: nat := 100
  /** 8 to the power 11: the first size that eleven octal digits do not hold. */
  const SIZE_LIMIT: nat := 8_589_934_592
  /** The largest length a JavaScript number holds exactly. */
  const MAX_SAFE: nat := 9_007_199_254_740_991

  datatype Option<T> = None | Some(value: T)
  datatype File = File(path: Bytes, content: Bytes)

  // ---------------------------------------------------------------------------
  // Numbers as text.

  function Pow(base: nat, k: nat): (p: nat) {
    if k == 0 then 1 else base * Pow(base, k - 1)
  }

  predicate Base(base: nat) { base == 8 || base == 10 }

  predicate IsDigits(d: Bytes, base: nat) {
    forall i :: 0 <= i < |d| ==> 48 <= d[i] < 48 + base
  }

  function Digits(n: nat, base: nat): (d: Bytes)
    requires Base(base)
    ensures d != [] && IsDigits(d, base)
  {
    (if n < base then [] else Digits(n / base, base)) + [48 + n % base]
  }

  function Value(d: Bytes, base: nat): (v: nat)
    requires Base(base) && IsDigits(d, base)
  {
    if d == [] then 0 else Value(d[..|d| - 1], base) * base + (d[|d| - 1] - 48)
  }

  lemma {:induction false} ValueOfDigits(n: nat, base: nat)
    requires Base(base)
    ensures Value(Digits(n, base), base) == n
  {
    var d := Digits(n, base);
    if n < base {
      assert d[..0] == [];
    } else {
      ValueOfDigits(n / base, base);
      assert d[..|d| - 1] == Digits(n / base, base);
    }
  }

  lemma {:induction false} DigitsFit(n: nat, base: nat, k: nat)
    requires Base(base) && k > 0
    ensures |Digits(n, base)| <= k <==> n < Pow(base, k)
    decreases k
  {
    if k == 1 {
      assert Pow(base, 1) == base;
    } else if n < base {
      PowGrows(base, 1, k);
    } else {
      DigitsFit(n / base, base, k - 1);
      if base == 8 { assert n / 8 < Pow(8, k - 1) <==> n < 8 * Pow(8, k - 1); }
      else { assert n / 10 < Pow(10, k - 1) <==> n < 10 * Pow(10, k - 1); }
    }
  }

  lemma {:induction false} PowGrows(base: nat, j: nat, k: nat)
    requires Base(base) && j <= k
    ensures Pow(base, j) <= Pow(base, k)
  {
    if j < k {
      PowGrows(base, j, k - 1);
      if base == 8 { assert Pow(8, k) == 8 * Pow(8, k - 1); } else { assert Pow(10, k) == 10 * Pow(10, k - 1); }
    }
  }

  function Fill(n: nat, b: Byte): (s: Bytes)
    ensures |s| == n && forall i :: 0 <= i < n ==> s[i] == b
  {
    seq(n, _ => b)
  }

  function PadStart(d: Bytes, n: nat): (s: Bytes)
    ensures |s| == if |d| < n then n else |d|
  {
    if |d| < n then Fill(n - |d|, 48) + d else d
  }

  lemma {:induction false} ValueOfPadded(d: Bytes, z: nat, base: nat)
    requires Base(base) && IsDigits(d, base)
    ensures IsDigits(Fill(z, 48) + d, base) && Value(Fill(z, 48) + d, base) == Value(d, base)
    decreases |d| + z
  {
    var s := Fill(z, 48) + d;
    if d != [] {
      ValueOfPadded(d[..|d| - 1], z, base);
      assert s[..|s| - 1] == Fill(z, 48) + d[..|d| - 1];
    } else if z > 0 {
      ValueOfPadded(d, z - 1, base);
      assert s[..|s| - 1] == Fill(z - 1, 48) + d;
    } else {
      assert s == [];
    }
  }

  // ---------------------------------------------------------------------------
  // Pax records.

  const SPACE: Byte := 32
  const NEWLINE: Byte := 10
  const EQUALS: Byte := 61
  /** "path" */
  const PATH_KEY: Bytes := [112, 97, 116, 104]

  /** The length of a record that ends in restBytes bytes after its own digits. */
  function RecordLength(restBytes: nat): (length: nat) {
    var length := restBytes + |Digits(restBytes, 10)|;
    if |Digits(length, 10)| > |Digits(restBytes, 10)| then restBytes + |Digits(length, 10)| else length
  }

  lemma {:induction false} DigitsAreFew(k: nat)
    requires k > 0
    ensures k < Pow(10, k)
  {
    if k > 1 { DigitsAreFew(k - 1); }
  }

  /** One correction is enough, whatever the length: the length counts its own digits. */
  lemma RecordLengthCountsItself(restBytes: nat)
    ensures RecordLength(restBytes) == restBytes + |Digits(RecordLength(restBytes), 10)|
  {
    var d := |Digits(restBytes, 10)|;
    DigitsFit(restBytes, 10, d);
    DigitsAreFew(d);
    assert Pow(10, d + 1) == 10 * Pow(10, d);
    DigitsFit(restBytes + d, 10, d);
    DigitsFit(restBytes + d, 10, d + 1);
    DigitsFit(restBytes + d + 1, 10, d);
    DigitsFit(restBytes + d + 1, 10, d + 1);
    LongerIsNotShorter(restBytes, restBytes + d);
  }

  lemma LongerIsNotShorter(m: nat, n: nat)
    requires m <= n
    ensures |Digits(m, 10)| <= |Digits(n, 10)|
  {
    var k := |Digits(n, 10)|;
    DigitsFit(n, 10, k);
    DigitsFit(m, 10, k);
  }

  function PaxRecord(key: Bytes, value: Bytes): (record: Bytes) {
    var rest := [SPACE] + key + [EQUALS] + value + [NEWLINE];
    Digits(RecordLength(|rest|), 10) + rest
  }

  function IndexOf(b: Bytes, x: Byte): (k: nat)
    ensures k <= |b| && (k < |b| ==> b[k] == x) && forall i :: 0 <= i < k ==> b[i] != x
  {
    if b == [] || b[0] == x then 0 else 1 + IndexOf(b[1..], x)
  }

  lemma IndexIs(b: Bytes, x: Byte, k: nat)
    requires k < |b| && b[k] == x && forall i :: 0 <= i < k ==> b[i] != x
    ensures IndexOf(b, x) == k
  { }

  datatype Record = Record(key: Bytes, value: Bytes)

  /** The first record of an extended header and what follows it. */
  function ParseRecord(b: Bytes): (r: Option<(Record, Bytes)>)
    ensures r.Some? ==> |r.value.1| < |b|
  {
    var k := IndexOf(b, SPACE);
    if k == |b| || k == 0 || !IsDigits(b[..k], 10) then None
    else
      var n := Value(b[..k], 10);
      if n > |b| || n < k + 2 || b[n - 1] != NEWLINE then None
      else
        var body := b[k + 1..n - 1];
        var e := IndexOf(body, EQUALS);
        if e == |body| then None else Some((Record(body[..e], body[e + 1..]), b[n..]))
  }

  /** All records of an extended header. */
  function ParsePax(b: Bytes): (r: Option<seq<Record>>)
    decreases |b|
  {
    if b == [] then Some([])
    else
      match ParseRecord(b)
      case None => None
      case Some(first) =>
        var more := ParsePax(first.1);
        if more.None? then None else Some([first.0] + more.value)
  }

  /** The path the records give: the last one counts, other keywords are not this reader's. */
  function PathOf(records: seq<Record>): (path: Option<Bytes>) {
    if records == [] then None
    else
      var last := records[|records| - 1];
      if last.key == PATH_KEY then Some(last.value) else PathOf(records[..|records| - 1])
  }

  /** The parts of digits, space, body, newline, and what follows. */
  lemma RecordParts(d: Bytes, body: Bytes, more: Bytes)
    requires IsDigits(d, 10)
    ensures var b := d + ([SPACE] + body + [NEWLINE]) + more; var n := |d| + |body| + 2;
      && IndexOf(b, SPACE) == |d| < |b| && b[..|d|] == d
      && n <= |b| && b[n - 1] == NEWLINE && b[|d| + 1..n - 1] == body && b[n..] == more
  {
    var b := d + ([SPACE] + body + [NEWLINE]) + more;
    assert forall i :: 0 <= i < |d| ==> b[i] == d[i];
    IndexIs(b, SPACE, |d|);
  }

  lemma BodyParts(key: Bytes, value: Bytes)
    requires EQUALS !in key
    ensures var body := key + [EQUALS] + value;
      IndexOf(body, EQUALS) == |key| < |body| && body[..|key|] == key && body[|key| + 1..] == value
  {
    var body := key + [EQUALS] + value;
    IndexIs(body, EQUALS, |key|);
  }

  /** A record is read back whole, whatever follows it. */
  lemma RecordRoundTrip(key: Bytes, value: Bytes, more: Bytes)
    requires EQUALS !in key
    ensures ParseRecord(PaxRecord(key, value) + more) == Some((Record(key, value), more))
  {
    hide Digits, Value, RecordLength, IndexOf;
    var body := key + [EQUALS] + value;
    var rest := [SPACE] + body + [NEWLINE];
    assert [SPACE] + key + [EQUALS] + value + [NEWLINE] == rest;
    var n := RecordLength(|rest|);
    RecordLengthCountsItself(|rest|);
    ValueOfDigits(n, 10);
    RecordParts(Digits(n, 10), body, more);
    BodyParts(key, value);
  }

  function RecordsBytes(records: seq<Record>): (b: Bytes) {
    if records == [] then [] else PaxRecord(records[0].key, records[0].value) + RecordsBytes(records[1..])
  }

  /** Any number of records is read back, in order. */
  lemma {:induction false} PaxRoundTrip(records: seq<Record>)
    requires forall i :: 0 <= i < |records| ==> EQUALS !in records[i].key
    ensures ParsePax(RecordsBytes(records)) == Some(records)
    decreases |records|
  {
    if records != [] {
      var first := records[0];
      RecordRoundTrip(first.key, first.value, RecordsBytes(records[1..]));
      PaxRoundTrip(records[1..]);
      assert PaxRecord(first.key, first.value) != [];
      hide PaxRecord, ParseRecord;
      assert records == [first] + records[1..];
    }
  }

  // ---------------------------------------------------------------------------
  // Headers.

  /** "0000644\0" */
  const MODE: Bytes := [48, 48, 48, 48, 54, 52, 52, 0]
  /** "0000000\0", for uid and gid */
  const OWNER: Bytes := [48, 48, 48, 48, 48, 48, 48, 0]
  /** "00000000000\0" */
  const MTIME: Bytes := [48, 48, 48, 48, 48, 48, 48, 48, 48, 48, 48, 0]
  /** "ustar\0" and version "00" */
  const MAGIC: Bytes := [117, 115, 116, 97, 114, 0, 48, 48]
  const SPACES: Bytes := [32, 32, 32, 32, 32, 32, 32, 32]

  /** At most 100 bytes of a name, ending on a whole character. */
  function NameField(name: Bytes): (n: Bytes)
    ensures |n| <= USTAR_NAME_BYTES && (|name| <= USTAR_NAME_BYTES ==> n == name)
  {
    if |name| <= USTAR_NAME_BYTES then name else name[..Cut(name[..USTAR_NAME_BYTES])]
  }

  function SizeText(n: nat): (t: Bytes)
    ensures |t| >= 12
  {
    PadStart(Digits(n, 8), 11) + [0]
  }

  function ChecksumText(sum: nat): (t: Bytes)
    ensures |t| >= 8
  {
    PadStart(Digits(sum, 8), 6) + [0, SPACE]
  }

  /** Byte i of a header whose checksum field holds chk. */
  function HeaderByte(name: Bytes, flag: Byte, size: nat, chk: Bytes, i: nat): (b: Byte)
    requires |chk| == 8 && i < BLOCK_SIZE
  {
    var n := NameField(name);
    if i < 100 then if i < |n| then n[i] else 0
    else if i < 108 then MODE[i - 100]
    else if i < 116 then OWNER[i - 108]
    else if i < 124 then OWNER[i - 116]
    else if i < 136 then SizeText(size)[i - 124]
    else if i < 148 then MTIME[i - 136]
    else if i < 156 then chk[i - 148]
    else if i == 156 then flag
    else if 257 <= i < 265 then MAGIC[i - 257]
    else 0
  }

  function HeaderWith(name: Bytes, flag: Byte, size: nat, chk: Bytes): (h: Bytes)
    requires |chk| == 8
    ensures |h| == BLOCK_SIZE
  {
    seq(BLOCK_SIZE, i requires 0 <= i < BLOCK_SIZE => HeaderByte(name, flag, size, chk, i))
  }

  function Sum(b: Bytes): (n: nat)
    ensures n <= 255 * |b|
  {
    if b == [] then 0 else Sum(b[..|b| - 1]) + b[|b| - 1]
  }

  /** The sum of any block is written in exactly six octal digits. */
  lemma ChecksumFits(h: Bytes)
    requires |h| == BLOCK_SIZE
    ensures |ChecksumText(Sum(h))| == 8
    ensures ParseOctal(ChecksumText(Sum(h))) == Some(Sum(h))
  {
    var sum := Sum(h);
    assert Pow(8, 6) == 262144;
    DigitsFit(sum, 8, 6);
    var d := Digits(sum, 8);
    OctalRoundTrip(sum, 6, [0, SPACE]);
  }

  function Header(name: Bytes, flag: Byte, size: nat): (h: Bytes)
    ensures |h| == BLOCK_SIZE
  {
    var blank := HeaderWith(name, flag, size, SPACES);
    ChecksumFits(blank);
    HeaderWith(name, flag, size, ChecksumText(Sum(blank)))
  }

  // ---------------------------------------------------------------------------
  // The reader's numeric fields: octal digits up to a NUL or a space.

  function NumberEnd(field: Bytes): (k: nat)
    ensures k <= |field| && (k < |field| ==> field[k] == 0 || field[k] == SPACE)
    ensures forall i :: 0 <= i < k ==> field[i] != 0 && field[i] != SPACE
  {
    if field == [] || field[0] == 0 || field[0] == SPACE then 0 else 1 + NumberEnd(field[1..])
  }

  function ParseOctal(field: Bytes): (r: Option<nat>) {
    var k := NumberEnd(field);
    if k == |field| || k == 0 || !IsDigits(field[..k], 8) then None else Some(Value(field[..k], 8))
  }

  lemma NumberEndIs(p: Bytes, end: Bytes)
    requires IsDigits(p, 8) && end != [] && end[0] == 0
    ensures NumberEnd(p + end) == |p| < |p + end| && (p + end)[..|p|] == p
  {
    var f := p + end;
    assert forall i :: 0 <= i < |p| ==> f[i] == p[i];
    assert f[|p|] == 0;
  }

  lemma OctalRoundTrip(n: nat, width: nat, end: Bytes)
    requires |Digits(n, 8)| <= width && end != [] && end[0] == 0
    ensures ParseOctal(PadStart(Digits(n, 8), width) + end) == Some(n)
    ensures |PadStart(Digits(n, 8), width)| == width
  {
    hide Digits, Value, NumberEnd, IsDigits;
    var d := Digits(n, 8);
    var p := PadStart(d, width);
    ValueOfDigits(n, 8);
    ValueOfPadded(d, width - |d|, 8);
    assert p == Fill(width - |d|, 48) + d;
    NumberEndIs(p, end);
  }

  /** The size field reads back exactly when eleven digits hold the size. */
  lemma SizeReadsBack(n: nat)
    ensures ParseOctal(SizeText(n)[..12]) == if n < SIZE_LIMIT then Some(n) else None
  {
    assert Pow(8, 11) == SIZE_LIMIT;
    DigitsFit(n, 8, 11);
    var d := Digits(n, 8);
    if n < SIZE_LIMIT {
      OctalRoundTrip(n, 11, [0]);
      assert SizeText(n)[..12] == SizeText(n);
    } else {
      var f := SizeText(n)[..12];
      assert forall i :: 0 <= i < 12 ==> f[i] == d[i];
    }
  }

  // ---------------------------------------------------------------------------
  // Archives.

  const EXTENDED: Byte := 120
  const REGULAR: Byte := 48
  /** "././@PaxHeader" */
  const PAX_NAME: Bytes := [46, 47, 46, 47, 64, 80, 97, 120, 72, 101, 97, 100, 101, 114]

  function Padding(n: nat): (p: nat)
    ensures p < BLOCK_SIZE && (n + p) % BLOCK_SIZE == 0
  {
    (BLOCK_SIZE - n % BLOCK_SIZE) % BLOCK_SIZE
  }

  function EntryBytes(name: Bytes, flag: Byte, content: Bytes): (b: Bytes) {
    Header(name, flag, |content|) + content + Fill(Padding(|content|), 0)
  }

  function FileBytes(f: File): (b: Bytes) {
    (if |f.path| > USTAR_NAME_BYTES then EntryBytes(PAX_NAME, EXTENDED, PaxRecord(PATH_KEY, f.path)) else [])
    + EntryBytes(f.path, REGULAR, f.content)
  }

  function FilesBytes(files: seq<File>): (b: Bytes) {
    if files == [] then [] else FileBytes(files[0]) + FilesBytes(files[1..])
  }

  function Archive(files: seq<File>): (b: Bytes) {
    FilesBytes(files) + Fill(2 * BLOCK_SIZE, 0)
  }

  // ---------------------------------------------------------------------------
  // The reader.

  datatype Entry = Entry(flag: Byte, name: Bytes, content: Bytes, rest: Bytes)

  function UpToNul(b: Bytes): (r: Bytes) { b[..IndexOf(b, 0)] }

  /** The name of an entry, behind the ustar prefix if there is one. */
  function NameOf(h: Bytes): (name: Bytes)
    requires |h| == BLOCK_SIZE
  {
    var name := UpToNul(h[..100]);
    if h[345] == 0 then name else UpToNul(h[345..500]) + [47] + name
  }

  function Blank(h: Bytes): (b: Bytes)
    requires |h| == BLOCK_SIZE
  {
    h[..148] + SPACES + h[156..]
  }

  function ReadEntry(b: Bytes): (r: Option<Entry>)
    ensures r.Some? ==> |r.value.rest| < |b|
  {
    if |b| < BLOCK_SIZE then None
    else
      var h := b[..BLOCK_SIZE];
      if ParseOctal(h[148..156]) != Some(Sum(Blank(h))) || h[257..263] != MAGIC[..6] then None
      else
        match ParseOctal(h[124..136])
        case None => None
        case Some(n) =>
          var total := BLOCK_SIZE + n + Padding(n);
          if |b| < total then None
          else Some(Entry(h[156], NameOf(h), b[BLOCK_SIZE..BLOCK_SIZE + n], b[total..]))
  }

  predicate Zeros(b: Bytes) { forall i :: 0 <= i < |b| ==> b[i] == 0 }

  /** The files of an archive; `path` is what an extended header said of the next one. */
  function ReadArchive(b: Bytes, path: Option<Bytes>): (r: Option<seq<File>>)
    decreases |b|
  {
    if |b| >= BLOCK_SIZE && Zeros(b[..BLOCK_SIZE]) then
      if |b| >= 2 * BLOCK_SIZE && Zeros(b[BLOCK_SIZE..2 * BLOCK_SIZE]) then Some([]) else None
    else
      match ReadEntry(b)
      case None => None
      case Some(e) =>
        if e.flag == EXTENDED then
          var records := ParsePax(e.content);
          if records.None? then None
          else ReadArchive(e.rest, if PathOf(records.value).Some? then PathOf(records.value) else path)
        else if e.flag == REGULAR then
          var more := ReadArchive(e.rest, None);
          if more.None? then None
          else Some([File(if path.Some? then path.value else e.name, e.content)] + more.value)
        else None
  }

  // ---------------------------------------------------------------------------
  // Reading back one entry.

  lemma HeaderChecks(name: Bytes, flag: Byte, size: nat)
    ensures var h := Header(name, flag, size);
      ParseOctal(h[148..156]) == Some(Sum(Blank(h)))
  {
    hide NameField, SizeText, ParseOctal, ChecksumText, Sum;
    var blank := HeaderWith(name, flag, size, SPACES);
    ChecksumFits(blank);
    var h := Header(name, flag, size);
    assert h[148..156] == ChecksumText(Sum(blank));
    assert Blank(h) == blank;
  }

  lemma HeaderFields(name: Bytes, flag: Byte, size: nat)
    ensures var h := Header(name, flag, size);
      h[257..263] == MAGIC[..6] && h[124..136] == SizeText(size)[..12] && h[156] == flag && h[345] == 0 && h[100] == 48
  {
    hide NameField, SizeText, ParseOctal, ChecksumText, Sum;
    ChecksumFits(HeaderWith(name, flag, size, SPACES));
  }

  lemma HeaderName(name: Bytes, flag: Byte, size: nat)
    requires 0 !in name && |name| <= USTAR_NAME_BYTES
    ensures NameOf(Header(name, flag, size)) == name
  {
    hide SizeText, ParseOctal, ChecksumText, Sum;
    HeaderFields(name, flag, size);
    ChecksumFits(HeaderWith(name, flag, size, SPACES));
    var f := Header(name, flag, size)[..100];
    assert forall i :: 0 <= i < |name| ==> f[i] == name[i];
    if |name| < 100 { IndexIs(f, 0, |name|); }
    assert f[..|name|] == name;
  }

  /** An entry is read back exactly when eleven octal digits hold its size. */
  lemma ReadEntryBack(name: Bytes, flag: Byte, content: Bytes, rest: Bytes)
    ensures var h := Header(name, flag, |content|);
      ReadEntry(EntryBytes(name, flag, content) + rest) ==
        if |content| < SIZE_LIMIT then Some(Entry(flag, NameOf(h), content, rest)) else None
  {
    hide Header, ParseOctal, Sum, SizeText, NameOf, Blank;
    var h := Header(name, flag, |content|);
    var b := EntryBytes(name, flag, content) + rest;
    assert b[..BLOCK_SIZE] == h;
    HeaderChecks(name, flag, |content|);
    HeaderFields(name, flag, |content|);
    SizeReadsBack(|content|);
    var n := |content|;
    assert b[BLOCK_SIZE..BLOCK_SIZE + n] == content;
    assert b[BLOCK_SIZE + n + Padding(n)..] == rest;
  }

  lemma EntryNotZero(name: Bytes, flag: Byte, content: Bytes, rest: Bytes)
    ensures var b := EntryBytes(name, flag, content) + rest;
      |b| >= BLOCK_SIZE && !Zeros(b[..BLOCK_SIZE])
  {
    hide Header, Padding;
    HeaderFields(name, flag, |content|);
    var b := EntryBytes(name, flag, content) + rest;
    assert b[..BLOCK_SIZE][100] == Header(name, flag, |content|)[100];
  }

  // ---------------------------------------------------------------------------
  // Reading back a whole archive.

  /** Eleven octal digits hold the sizes of both entries of the file. */
  predicate Fits(f: File) {
    && |f.content| < SIZE_LIMIT
    && (|f.path| > USTAR_NAME_BYTES ==> |PaxRecord(PATH_KEY, f.path)| < SIZE_LIMIT)
  }

  /** The reader at a regular entry. */
  lemma ReadRegular(name: Bytes, content: Bytes, rest: Bytes, path: Option<Bytes>)
    requires path == Some(name) || (path.None? && 0 !in name && |name| <= USTAR_NAME_BYTES)
    ensures var more := ReadArchive(rest, None);
      ReadArchive(EntryBytes(name, REGULAR, content) + rest, path) ==
        if |content| < SIZE_LIMIT && more.Some? then Some([File(name, content)] + more.value) else None
  {
    hide Header, ReadEntry, EntryBytes, NameOf, Zeros;
    EntryNotZero(name, REGULAR, content, rest);
    ReadEntryBack(name, REGULAR, content, rest);
    if path.None? { HeaderName(name, REGULAR, |content|); }
  }

  lemma OneRecord(path: Bytes)
    ensures ParsePax(PaxRecord(PATH_KEY, path)).Some?
    ensures PathOf(ParsePax(PaxRecord(PATH_KEY, path)).value) == Some(path)
  {
    hide PaxRecord, ParsePax;
    var records := [Record(PATH_KEY, path)];
    PaxRoundTrip(records);
    assert records[1..] == [];
    assert PaxRecord(PATH_KEY, path) + [] == PaxRecord(PATH_KEY, path);
  }

  /** The reader at the extended header of a long path. */
  lemma ReadExtended(path: Bytes, rest: Bytes)
    ensures var record := PaxRecord(PATH_KEY, path);
      ReadArchive(EntryBytes(PAX_NAME, EXTENDED, record) + rest, None) ==
        if |record| < SIZE_LIMIT then ReadArchive(rest, Some(path)) else None
  {
    hide Header, ReadEntry, EntryBytes, NameOf, Zeros, PaxRecord, ParsePax, PathOf;
    var record := PaxRecord(PATH_KEY, path);
    EntryNotZero(PAX_NAME, EXTENDED, record, rest);
    ReadEntryBack(PAX_NAME, EXTENDED, record, rest);
    OneRecord(path);
  }

  lemma ReadFile(f: File, rest: Bytes)
    requires 0 !in f.path
    ensures var more := ReadArchive(rest, None);
      ReadArchive(FileBytes(f) + rest, None) ==
        if Fits(f) && more.Some? then Some([f] + more.value) else None
  {
    hide ReadArchive, EntryBytes, PaxRecord;
    var body := EntryBytes(f.path, REGULAR, f.content);
    if |f.path| > USTAR_NAME_BYTES {
      ReadExtended(f.path, body + rest);
      ReadRegular(f.path, f.content, rest, Some(f.path));
      assert FileBytes(f) + rest
        == EntryBytes(PAX_NAME, EXTENDED, PaxRecord(PATH_KEY, f.path)) + (body + rest);
    } else {
      ReadRegular(f.path, f.content, rest, None);
      assert FileBytes(f) + rest == body + rest;
    }
  }

  lemma ReadEnd()
    ensures ReadArchive(Fill(2 * BLOCK_SIZE, 0), None) == Some([])
  { }

  /** The archive reads back as exactly the files given, if and only if every size fits its field. */
  lemma {:induction false} ArchiveReadsBack(files: seq<File>)
    requires forall f :: f in files ==> 0 !in f.path
    ensures ReadArchive(Archive(files), None) == if forall f :: f in files ==> Fits(f) then Some(files) else None
    decreases |files|
  {
    hide ReadArchive, FileBytes, Fits;
    var tail := Fill(2 * BLOCK_SIZE, 0);
    if files == [] {
      ReadEnd();
      assert Archive(files) == tail;
    } else {
      ArchiveReadsBack(files[1..]);
      ReadFile(files[0], Archive(files[1..]));
      assert Archive(files) == FileBytes(files[0]) + Archive(files[1..]);
      assert files == [files[0]] + files[1..];
    }
  }

  lemma EntryWhole(name: Bytes, flag: Byte, content: Bytes)
    ensures |EntryBytes(name, flag, content)| % BLOCK_SIZE == 0
  {
    hide Header, Padding;
    var n := |content| + Padding(|content|);
    assert |EntryBytes(name, flag, content)| == BLOCK_SIZE + n;
  }

  lemma FileWhole(f: File)
    ensures |FileBytes(f)| % BLOCK_SIZE == 0
  {
    hide EntryBytes, PaxRecord;
    EntryWhole(PAX_NAME, EXTENDED, PaxRecord(PATH_KEY, f.path));
    EntryWhole(f.path, REGULAR, f.content);
  }

  /** Every entry, and so the archive, is a whole number of blocks. */
  lemma {:induction false} WholeBlocks(files: seq<File>)
    ensures |FilesBytes(files)| % BLOCK_SIZE == 0 && |Archive(files)| % BLOCK_SIZE == 0
    decreases |files|
  {
    hide FileBytes;
    if files != [] {
      WholeBlocks(files[1..]);
      FileWhole(files[0]);
    }
  }

  // ---------------------------------------------------------------------------
  // The writer.

  /** Writes data into the buffer at offset. */
  method Put(buffer: array<Byte>, data: Bytes, offset: nat)
    requires offset + |data| <= buffer.Length
    modifies buffer
    ensures forall i :: 0 <= i < buffer.Length ==>
      buffer[i] == if offset <= i < offset + |data| then data[i - offset] else old(buffer[i])
  {
    forall i | 0 <= i < |data| {
      buffer[offset + i] := data[i];
    }
  }

  method Total(buffer: array<Byte>) returns (checksum: nat)
    ensures checksum == Sum(buffer[..])
  {
    checksum := 0;
    for i := 0 to buffer.Length
      invariant checksum == Sum(buffer[..i])
    {
      assert buffer[..i + 1][..i] == buffer[..i];
      checksum := checksum + buffer[i];
    }
    assert buffer[..buffer.Length] == buffer[..];
  }

  lemma SizeTextShort(n: nat)
    requires n <= MAX_SAFE
    ensures |SizeText(n)| <= 24
  {
    assert Pow(8, 6) == 262_144 && Pow(8, 12) == 68_719_476_736;
    assert Pow(8, 18) == 18_014_398_509_481_984;
    DigitsFit(n, 8, 18);
  }

  /** The header's fields, its checksum counted as spaces. */
  method PutFields(header: array<Byte>, name: Bytes, flag: Byte, size: nat)
    requires header.Length == BLOCK_SIZE && size <= MAX_SAFE && (forall i :: 0 <= i < BLOCK_SIZE ==> header[i] == 0)
    modifies header
    ensures header[..] == HeaderWith(name, flag, size, SPACES)
  {
    hide NameField, SizeText, ChecksumText, Sum;
    Put(header, NameField(name), 0);
    Put(header, MODE, 100);
    Put(header, OWNER, 108);
    Put(header, OWNER, 116);
    SizeTextShort(size);
    Put(header, SizeText(size), 124);
    Put(header, MTIME, 136);
    Put(header, SPACES, 148);
    Put(header, [flag], 156);
    Put(header, MAGIC, 257);
    assert forall i :: 0 <= i < BLOCK_SIZE ==> header[i] == HeaderByte(name, flag, size, SPACES, i);
  }

  method TarEntry(name: Bytes, flag: Byte, content: Bytes) returns (blocks: seq<Bytes>)
    requires |content| <= MAX_SAFE
    ensures |blocks| == 3 && blocks[0] + blocks[1] + blocks[2] == EntryBytes(name, flag, content)
  {
    hide NameField, SizeText, ChecksumText, Sum;
    var header := new Byte[BLOCK_SIZE](_ => 0);
    PutFields(header, name, flag, |content|);
    var checksum := Total(header);
    ghost var blank := HeaderWith(name, flag, |content|, SPACES);
    ChecksumFits(blank);
    Put(header, ChecksumText(checksum), 148);
    assert forall i :: 0 <= i < BLOCK_SIZE ==> blank[i] == HeaderByte(name, flag, |content|, SPACES, i);
    assert header[..] == HeaderWith(name, flag, |content|, ChecksumText(checksum));
    blocks := [header[..], content, Fill((BLOCK_SIZE - |content| % BLOCK_SIZE) % BLOCK_SIZE, 0)];
  }

  datatype Built = Built(archive: Bytes) | NulInPath(path: Bytes)

  function Join(blocks: seq<Bytes>): (b: Bytes) {
    if blocks == [] then [] else Join(blocks[..|blocks| - 1]) + blocks[|blocks| - 1]
  }

  lemma JoinThree(blocks: seq<Bytes>, more: seq<Bytes>)
    requires |more| == 3
    ensures Join(blocks + more) == Join(blocks) + (more[0] + more[1] + more[2])
  {
    assert blocks + more == blocks + [more[0]] + [more[1]] + [more[2]];
    JoinOne(blocks, more[0]);
    JoinOne(blocks + [more[0]], more[1]);
    JoinOne(blocks + [more[0]] + [more[1]], more[2]);
    assert Join(blocks) + more[0] + more[1] + more[2] == Join(blocks) + (more[0] + more[1] + more[2]);
  }

  lemma JoinOne(blocks: seq<Bytes>, b: Bytes)
    ensures Join(blocks + [b]) == Join(blocks) + b
  {
    assert (blocks + [b])[..|blocks|] == blocks;
  }

  lemma {:induction false} FilesBytesSnoc(files: seq<File>, f: File)
    ensures FilesBytes(files + [f]) == FilesBytes(files) + FileBytes(f)
    decreases |files|
  {
    hide FileBytes;
    if files == [] {
      assert [f][1..] == [] && files + [f] == [f];
    } else {
      FilesBytesSnoc(files[1..], f);
      assert (files + [f])[1..] == files[1..] + [f];
    }
  }

  /** The blocks of one file, its extended header first when it needs one. */
  method FileBlocks(f: File, before: seq<Bytes>) returns (blocks: seq<Bytes>)
    requires |f.content| <= MAX_SAFE && |PaxRecord(PATH_KEY, f.path)| <= MAX_SAFE
    ensures Join(blocks) == Join(before) + FileBytes(f)
  {
    hide EntryBytes, PaxRecord, Join;
    blocks := before;
    if |f.path| > USTAR_NAME_BYTES {
      var extended := TarEntry(PAX_NAME, EXTENDED, PaxRecord(PATH_KEY, f.path));
      JoinThree(blocks, extended);
      blocks := blocks + extended;
    }
    var regular := TarEntry(f.path, REGULAR, f.content);
    JoinThree(blocks, regular);
    blocks := blocks + regular;
    assert Join(blocks) == Join(before) + FileBytes(f);
  }

  /** gzipTar up to the compression: the archive, or the first path with a NUL. */
  method BuildTar(files: seq<File>) returns (r: Built)
    requires forall f :: f in files ==> |f.content| <= MAX_SAFE && |PaxRecord(PATH_KEY, f.path)| <= MAX_SAFE
    ensures r.Built? <==> forall f :: f in files ==> 0 !in f.path
    ensures r.Built? ==> r.archive == Archive(files)
    ensures r.NulInPath? ==> 0 in r.path && exists f :: f in files && f.path == r.path
  {
    hide PaxRecord, FileBytes, Join;
    var blocks: seq<Bytes> := [];
    JoinNothing();
    for i := 0 to |files|
      invariant Join(blocks) == FilesBytes(files[..i])
      invariant forall f :: f in files[..i] ==> 0 !in f.path
    {
      var f := files[i];
      if 0 in f.path { return NulInPath(f.path); }
      blocks := FileBlocks(f, blocks);
      assert files[..i + 1] == files[..i] + [f];
      FilesBytesSnoc(files[..i], f);
    }
    assert files[..|files|] == files;
    JoinOne(blocks, Fill(2 * BLOCK_SIZE, 0));
    blocks := blocks + [Fill(2 * BLOCK_SIZE, 0)];
    r := Built(Join(blocks));
  }

  lemma JoinNothing()
    ensures Join([]) == []
  { }
}
