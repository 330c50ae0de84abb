/**
 The header planner of the VulcanFS initrd generator.

 `setup_header` fills one header of the table (name, length, offset, magic
 number) and advances a byte cursor by the file's length; `main` collects the
 `-f` paths and `-n` names into two 128-slot arrays and, when there are as many
 of each, fills the header table slot by slot, pairing the i-th path with the
 i-th name. Cursor, lengths and offsets are C `unsigned int`s, so every
 addition on them is taken modulo 2^32.
 */
module VulcanFS {

  const U32_MODULUS: int := 0x1_0000_0000

  /** The C `unsigned int` (32 bits on the platforms the generator targets). */
  type u32 = x: int | 0 <= x < U32_MODULUS

  /** The C `unsigned short`. */
  type u16 = x: int | 0 <= x < 0x1_0000

  /** The tag stamped into every header. */
  const MAGIC_NUMBER: u16 := 0x0ECC

  /** Bytes of the `name` field, the terminating NUL included. */
  const NAME_FIELD_SIZE: nat := 64

  /** Slots of the argument arrays and of the header table. */
  const TABLE_CAPACITY: nat := 128

  /** `sizeof(struct vulcanfs_header)`: a 64-byte name, two 4-byte `unsigned int`s
      and a 2-byte `unsigned short`, padded to a multiple of 4 on the common ABIs.
      No proof below depends on this value beyond the base offset fitting in 32 bits. */
  const HEADER_SIZE: nat := 76

  /** `sizeof(int)`, the room left for the entry count. */
  const INT_SIZE: nat := 4

  /** Header slots the first payload offset skips: 64, not the table's 128. */
  const BASE_SLOTS: nat := 64

  /** The cursor's starting value, before any header is planned. */
  const BASE_OFFSET: u32 := HEADER_SIZE * BASE_SLOTS + INT_SIZE

  /** Conversion of a non-negative C value into an `unsigned int`: the one value
      in range that differs from `x` by a multiple of 2^32. */
  function ToU32(x: nat): (r: u32)
    ensures x < U32_MODULUS ==> r == x
    ensures (x - r) % U32_MODULUS == 0
  {
    x % U32_MODULUS
  }

  /** One C `char`, as the byte it stores. */
  type byte = x: int | 0 <= x < 0x100

  /** A C string: the bytes before its terminating NUL, so none of them is NUL.
      `strcpy` copies exactly these bytes and then the terminator. */
  type CString = s: seq<byte> | forall i | 0 <= i < |s| :: s[i] != 0

  /** `struct vulcanfs_header`; `name` holds the bytes before the terminator. */
  datatype Header = Header(name: CString, length: u32, offset: u32, magic: u16)

  /** `strcpy` into the 64-byte field stays within it: at most 63 bytes plus the NUL. */
  predicate FitsNameField(name: CString) {
    |name| < NAME_FIELD_SIZE
  }

  /** What `fopen`/`fseek`/`ftell` report: the byte length of the file at each path. */
  type FileSystem = CString -> nat

  /** One `-f` path with the `-n` name it is archived under. */
  datatype Entry = Entry(path: CString, name: CString)

  /** The header `length` of an entry: the file's size converted to `unsigned int`. */
  function HeaderLength(fs: FileSystem, e: Entry): (r: u32)
    ensures fs(e.path) < U32_MODULUS ==> r == fs(e.path)
    ensures (fs(e.path) - r) % U32_MODULUS == 0
  {
    ToU32(fs(e.path))
  }

  /** The sum, without wrap-around, of the header lengths of the first `n` entries. */
  function SumLengths(fs: FileSystem, entries: seq<Entry>, n: nat): nat
    requires n <= |entries|
  {
    if n == 0 then 0 else SumLengths(fs, entries, n - 1) + HeaderLength(fs, entries[n - 1])
  }

  /** The headers planned for a list of entries and the cursor left behind. */
  datatype Layout = Layout(headers: seq<Header>, cursor: u32)

  /** Reference definition of the planner on the first `n` entries: `setup_header`
      applied to each of them in input order, each call starting at the cursor the
      previous one left. */
  function PlanFirst(fs: FileSystem, base: u32, entries: seq<Entry>, n: nat): (r: Layout)
    requires n <= |entries|
    ensures |r.headers| == n
  {
    if n == 0 then Layout([], base)
    else
      var before := PlanFirst(fs, base, entries, n - 1);
      var len := HeaderLength(fs, entries[n - 1]);
      Layout(before.headers + [Header(entries[n - 1].name, len, before.cursor, MAGIC_NUMBER)],
             ToU32(before.cursor + len))
  }

  /** The planner on the whole list. */
  function Plan(fs: FileSystem, base: u32, entries: seq<Entry>): Layout {
    PlanFirst(fs, base, entries, |entries|)
  }

  /** Pairs the i-th path with the i-th name. */
  function Zip(paths: seq<CString>, names: seq<CString>): (r: seq<Entry>)
    requires |paths| == |names|
    ensures |r| == |paths|
    ensures forall i :: 0 <= i < |r| ==> r[i].path == paths[i] && r[i].name == names[i]
  {
    seq(|paths|, i requires 0 <= i < |paths| => Entry(paths[i], names[i]))
  }

  /** No addition on the cursor wraps around. */
  predicate NoWrap(fs: FileSystem, base: u32, entries: seq<Entry>) {
    base + SumLengths(fs, entries, |entries|) < U32_MODULUS
  }

  // ---------------------------------------------------------------------------
  // setup_header

  /** Fills one header: copies `name`, sets `length` to the size of the file at `path`,
      `offset` to the cursor on entry and the magic number, and returns the cursor
      advanced by the length, modulo 2^32. Every field of `header` is overwritten,
      so the result does not depend on it. */
  method SetupHeader(header: Header, path: CString, name: CString, fs: FileSystem, ofs: u32)
    returns (h: Header, ofs': u32)
    requires FitsNameField(name)
    ensures h.name == name
    ensures h.length == ToU32(fs(path))
    ensures h.offset == ofs
    ensures h.magic == MAGIC_NUMBER
    ensures ofs' == ToU32(ofs + h.length)
  {
    h := header.(name := name);
    h := h.(length := ToU32(fs(path)));
    h := h.(offset := ofs);
    ofs' := ToU32(ofs + h.length);
    h := h.(magic := MAGIC_NUMBER);
  }

  // ---------------------------------------------------------------------------
  // Properties of the planner

  lemma ModAddLeft(a: nat, b: nat)
    ensures (a % U32_MODULUS + b) % U32_MODULUS == (a + b) % U32_MODULUS
  {
  }

  /** Header i carries the magic number, the i-th name and the length of the i-th
      path's file. */
  lemma {:induction false} PlanFields(fs: FileSystem, base: u32, entries: seq<Entry>, n: nat, i: nat)
    requires i < n <= |entries|
    ensures var h := PlanFirst(fs, base, entries, n).headers[i];
            h.magic == MAGIC_NUMBER && h.name == entries[i].name && h.length == HeaderLength(fs, entries[i])
    decreases n
  {
    if i < n - 1 {
      PlanFields(fs, base, entries, n - 1, i);
    }
  }

  /** Planning fewer entries yields a prefix of the headers. */
  lemma {:induction false} PlanPrefix(fs: FileSystem, base: u32, entries: seq<Entry>, k: nat, n: nat)
    requires k <= n <= |entries|
    ensures PlanFirst(fs, base, entries, k).headers == PlanFirst(fs, base, entries, n).headers[..k]
    decreases n
  {
    if k < n {
      PlanPrefix(fs, base, entries, k, n - 1);
    }
  }

  /** A header's offset is the cursor left by planning all the entries before it. */
  lemma OffsetIsCursorBefore(fs: FileSystem, base: u32, entries: seq<Entry>, i: nat)
    requires i < |entries|
    ensures Plan(fs, base, entries).headers[i].offset == PlanFirst(fs, base, entries, i).cursor
  {
    PlanPrefix(fs, base, entries, i + 1, |entries|);
  }

  /** The cursor after planning n entries is the base plus their total length,
      modulo 2^32; with no entries it is the base itself. */
  lemma {:induction false} CursorIsBasePlusTotal(fs: FileSystem, base: u32, entries: seq<Entry>, n: nat)
    requires n <= |entries|
    ensures PlanFirst(fs, base, entries, n).cursor == (base + SumLengths(fs, entries, n)) % U32_MODULUS
  {
    if n > 0 {
      CursorIsBasePlusTotal(fs, base, entries, n - 1);
      ModAddLeft(base + SumLengths(fs, entries, n - 1), HeaderLength(fs, entries[n - 1]));
    }
  }

  /** Every offset is the base plus the lengths of the entries before it, modulo 2^32. */
  lemma OffsetIsPrefixSum(fs: FileSystem, base: u32, entries: seq<Entry>, i: nat)
    requires i < |entries|
    ensures Plan(fs, base, entries).headers[i].offset
            == (base + SumLengths(fs, entries, i)) % U32_MODULUS
  {
    OffsetIsCursorBefore(fs, base, entries, i);
    CursorIsBasePlusTotal(fs, base, entries, i);
  }

  /** The first header starts at the base. */
  lemma FirstOffsetIsBase(fs: FileSystem, base: u32, entries: seq<Entry>)
    requires entries != []
    ensures Plan(fs, base, entries).headers[0].offset == base
  {
    OffsetIsCursorBefore(fs, base, entries, 0);
  }

  /** Each entry starts where the previous one ends, modulo 2^32, and the final
      cursor is where the last one ends. */
  lemma TilesModulo(fs: FileSystem, base: u32, entries: seq<Entry>, i: nat)
    requires i < |entries|
    ensures var r := Plan(fs, base, entries);
            var end := (r.headers[i].offset + r.headers[i].length) % U32_MODULUS;
            if i + 1 < |entries| then r.headers[i + 1].offset == end else r.cursor == end
  {
    OffsetIsCursorBefore(fs, base, entries, i);
    PlanFields(fs, base, entries, |entries|, i);
    if i + 1 < |entries| {
      OffsetIsCursorBefore(fs, base, entries, i + 1);
    }
  }

  lemma {:induction false} SumLengthsMonotone(fs: FileSystem, entries: seq<Entry>, j: nat, k: nat)
    requires j <= k <= |entries|
    ensures SumLengths(fs, entries, j) <= SumLengths(fs, entries, k)
    decreases k
  {
    if j < k {
      SumLengthsMonotone(fs, entries, j, k - 1);
    }
  }

  /** When the image fits in 32 bits, offsets are exact prefix sums, consecutive
      entries tile the payload region with no gap or overlap, and the final cursor
      is the base plus the total length. */
  lemma TilesExactly(fs: FileSystem, base: u32, entries: seq<Entry>, i: nat)
    requires NoWrap(fs, base, entries)
    requires i < |entries|
    ensures var r := Plan(fs, base, entries);
            && r.headers[i].offset == base + SumLengths(fs, entries, i)
            && (i + 1 < |entries| ==> r.headers[i].offset + r.headers[i].length == r.headers[i + 1].offset)
            && (i + 1 == |entries| ==> r.headers[i].offset + r.headers[i].length == r.cursor)
            && r.cursor == base + SumLengths(fs, entries, |entries|)
  {
    SumLengthsMonotone(fs, entries, i + 1, |entries|);
    PlanFields(fs, base, entries, |entries|, i);
    OffsetIsPrefixSum(fs, base, entries, i);
    CursorIsBasePlusTotal(fs, base, entries, |entries|);
    if i + 1 < |entries| {
      OffsetIsPrefixSum(fs, base, entries, i + 1);
    }
  }

  /** When the image fits in 32 bits, the payload ranges of any two entries are
      disjoint and in table order, and all lie between the base and the final cursor. */
  lemma NoOverlap(fs: FileSystem, base: u32, entries: seq<Entry>, i: nat, j: nat)
    requires NoWrap(fs, base, entries)
    requires i < j < |entries|
    ensures var r := Plan(fs, base, entries);
            && base <= r.headers[i].offset
            && r.headers[i].offset + r.headers[i].length <= r.headers[j].offset
            && r.headers[j].offset + r.headers[j].length <= r.cursor
  {
    TilesExactly(fs, base, entries, i);
    TilesExactly(fs, base, entries, j);
    PlanFields(fs, base, entries, |entries|, i);
    PlanFields(fs, base, entries, |entries|, j);
    SumLengthsMonotone(fs, entries, i + 1, j);
    SumLengthsMonotone(fs, entries, j + 1, |entries|);
  }

  // ---------------------------------------------------------------------------
  // main: the argument arrays, the header loop and the count check

  /** The `file_path`/`file_name` arrays of `main` and their counters. */
  class Arguments {
    var filePath: array<CString>
    var fileName: array<CString>
    var localCount: nat
    var remoteCount: nat

    ghost predicate Valid()
      reads this
    {
      && filePath != fileName
      && filePath.Length == TABLE_CAPACITY
      && fileName.Length == TABLE_CAPACITY
      && localCount <= TABLE_CAPACITY
      && remoteCount <= TABLE_CAPACITY
    }

    /** The `-f` paths given so far, in order. */
    ghost function Paths(): seq<CString>
      reads this, filePath
      requires Valid()
    {
      filePath[..localCount]
    }

    /** The `-n` names given so far, in order. */
    ghost function Names(): seq<CString>
      reads this, fileName
      requires Valid()
    {
      fileName[..remoteCount]
    }

    /** The i-th path paired with the i-th name. */
    ghost function Entries(): (r: seq<Entry>)
      reads this, filePath, fileName
      requires Valid() && localCount == remoteCount
      ensures |r| == localCount
      ensures forall i :: 0 <= i < |r| ==> r[i] == Entry(filePath[i], fileName[i])
    {
      Zip(Paths(), Names())
    }

    /** Both arrays empty, both counters zero. */
    constructor ()
      ensures Valid()
      ensures fresh(filePath) && fresh(fileName)
      ensures Paths() == [] && Names() == []
    {
      filePath := new CString[TABLE_CAPACITY];
      fileName := new CString[TABLE_CAPACITY];
      localCount, remoteCount := 0, 0;
    }

    /** `-f`: `file_path[local_count++] = optarg`, with no bound check, hence the requires. */
    method AddPath(path: CString)
      requires Valid()
      requires localCount < TABLE_CAPACITY
      modifies this`localCount, filePath
      ensures Valid()
      ensures Paths() == old(Paths()) + [path]
      ensures Names() == old(Names())
    {
      filePath[localCount] := path;
      localCount := localCount + 1;
    }

    /** `-n`: `file_name[remote_count++] = optarg`, with no bound check, hence the requires. */
    method AddName(name: CString)
      requires Valid()
      requires remoteCount < TABLE_CAPACITY
      modifies this`remoteCount, fileName
      ensures Valid()
      ensures Names() == old(Names()) + [name]
      ensures Paths() == old(Paths())
    {
      fileName[remoteCount] := name;
      remoteCount := remoteCount + 1;
    }
  }

  /** The header loop: starting the cursor at the base offset, fills `vfs[0..count)`
      in input order, slot i from the i-th path and the i-th name, and leaves the
      other slots alone. `vfs` stands for the uninitialised table `vfs_h`; the table
      has no bound check, so the count must not exceed its 128 slots. */
  method PlanHeaders(paths: seq<CString>, names: seq<CString>, fs: FileSystem, vfs: array<Header>)
    returns (ofs: u32)
    requires |paths| == |names| <= TABLE_CAPACITY
    requires vfs.Length == TABLE_CAPACITY
    requires forall i :: 0 <= i < |names| ==> FitsNameField(names[i])
    modifies vfs
    ensures vfs[..|paths|] == Plan(fs, BASE_OFFSET, Zip(paths, names)).headers
    ensures ofs == Plan(fs, BASE_OFFSET, Zip(paths, names)).cursor
    ensures vfs[|paths|..] == old(vfs[|paths|..])
  {
    ghost var entries := Zip(paths, names);
    ghost var original := vfs[..];
    ofs := BASE_OFFSET;
    var i := 0;
    while i < |paths|
      invariant 0 <= i <= |paths|
      invariant ofs == PlanFirst(fs, BASE_OFFSET, entries, i).cursor
      invariant vfs[..i] == PlanFirst(fs, BASE_OFFSET, entries, i).headers
      invariant vfs[i..] == original[i..]
    {
      var h;
      h, ofs := SetupHeader(vfs[i], paths[i], names[i], fs, ofs);
      assert h.length == HeaderLength(fs, entries[i]);
      vfs[i] := h;
      assert vfs[..i + 1] == vfs[..i] + [h];
      i := i + 1;
    }
  }

  /** The count check and the planning step of `main`: with as many paths as names
      the table is planned and `main` goes on to exit with 0; otherwise it reports
      the mismatch and exits with 1, planning nothing. */
  method BuildHeaderTable(args: Arguments, fs: FileSystem, vfs: array<Header>) returns (exitCode: int)
    requires args.Valid()
    requires vfs.Length == TABLE_CAPACITY
    requires args.localCount == args.remoteCount ==>
               forall i :: 0 <= i < args.remoteCount ==> FitsNameField(args.fileName[i])
    modifies vfs
    ensures exitCode == (if args.localCount == args.remoteCount then 0 else 1)
    ensures args.localCount == args.remoteCount ==>
              vfs[..args.localCount] == Plan(fs, BASE_OFFSET, args.Entries()).headers
    ensures args.localCount != args.remoteCount ==> vfs[..] == old(vfs[..])
    ensures vfs[args.localCount..] == old(vfs[args.localCount..])
  {
    if args.localCount == args.remoteCount {
      var _ := PlanHeaders(args.filePath[..args.localCount], args.fileName[..args.remoteCount], fs, vfs);
      exitCode := 0;
    } else {
      exitCode := 1;
    }
  }
}
