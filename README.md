# VulcanFS header planner

VulcanFS builds an initrd image for the VulcanOS kernel. This project models the
one part of `vulcanfs.c` that computes something: the header planner.

- `setup_header` fills one `struct vulcanfs_header`. It copies the archive name,
  sets `length` to the size of the source file and sets `offset` to the current
  cursor. It then advances the cursor by the length and stamps the magic number
  `0x0ECC`.
- `main` stores the `-f` paths and the `-n` names in two 128-slot arrays. When
  there are as many paths as names, it starts the cursor at
  `sizeof(struct vulcanfs_header) * 64 + sizeof(int)` and fills the header table
  `vfs_h[0..count)` in input order. Slot i pairs the i-th path with the i-th name.
  Otherwise it reports the mismatch and exits with status 1.

Everything is in `vulcanfs.dfy`, module `VulcanFS`:

- `Header`, `Entry` and `Layout` are values. `Arguments` is a class holding the
  two argument arrays and their counters, updated in place as `main` does.
- `SetupHeader` is the single-header step. `PlanHeaders` is the header loop over
  the table array. `BuildHeaderTable` is the count check around the loop.
- `PlanFirst` / `Plan` are the reference definition of the loop as a function.
  The lemmas prove what the planner promises about it: magic number, pairing,
  offsets as prefix sums, tiling and no overlap.

Arithmetic follows the C types. `length`, `offset` and the cursor are
`unsigned int`, so the model reduces every addition on them modulo 2^32
(`ToU32`). The file size (a `long` from `ftell`) is converted the same way. The
exact tiling lemmas assume that the base plus the total length fits in 32 bits
(`NoWrap`). The modular lemmas hold without that assumption.

`sizeof(struct vulcanfs_header)` is the named constant `HEADER_SIZE` (76, the
usual padded size). `sizeof(int)` is `INT_SIZE` (4). The proofs use `HEADER_SIZE`
only through `BASE_OFFSET`.

Paths and names are C strings. `CString` holds the bytes before the
terminating NUL, so none of them is NUL. `FitsNameField` limits a name to 63 of
these bytes, which leaves room for the terminator that `strcpy` writes into the
64-byte `name` field.

Where the code and its header comment (vulcanfs.c:5-6) disagree, the model
follows the code:

- The base offset reserves 64 header slots (`BASE_SLOTS`), not the 128 of the
  table and of the header comment. It also reserves `sizeof(int)` bytes for the
  count, not the 8 bytes the comment mentions.

What `vulcanfs.c` does not check becomes a precondition:

- `main` stores the `-f` and `-n` arguments and fills `vfs_h` without checking
  the 128-slot bound. So "at most 128 entries" is a precondition of
  `Arguments.AddPath`, `Arguments.AddName` and `PlanHeaders`.
- `setup_header` copies the name with `strcpy` and does not check its length.
  So `FitsNameField` (at most 63 bytes) is a precondition of `SetupHeader`.
- Nothing checks that two entries have different names, and the model adds no
  such check.

## Model

| member | source | states |
|---|---|---|
| VulcanFS.ToU32 | vulcanfs.c:37-40 | the conversion to `unsigned int` keeps a value below 2^32 and otherwise gives the value in range that differs from it by a multiple of 2^32 |
| VulcanFS.HeaderLength | vulcanfs.c:36-37 | a header's `length` is the size of its source file, kept exactly when it is below 2^32 and reduced modulo 2^32 otherwise |
| VulcanFS.Zip | vulcanfs.c:104-105 | pairing yields one entry per path, and entry i holds the i-th path and the i-th name |
| VulcanFS.SetupHeader | vulcanfs.c:26-47 | the header gets the given name, the file's size as an `unsigned int` length, the entry cursor as offset and magic `0x0ECC`; the returned cursor is offset + length modulo 2^32; no field of the old header survives |
| VulcanFS.PlanFirst | vulcanfs.c:104-105 | planning the first n entries yields exactly n headers |
| VulcanFS.PlanFields | vulcanfs.c:29-42 | header i carries the magic number, the i-th archive name verbatim and the length of the i-th path's file |
| VulcanFS.PlanPrefix | vulcanfs.c:104-105 | planning fewer entries yields a prefix of the header table: later iterations never change earlier slots |
| VulcanFS.OffsetIsCursorBefore | vulcanfs.c:39-40 | header i's offset is the cursor left by planning entries 0..i-1 |
| VulcanFS.CursorIsBasePlusTotal | vulcanfs.c:40 | the cursor after n entries is base + sum of their lengths, modulo 2^32; with no entries it is the base |
| VulcanFS.OffsetIsPrefixSum | vulcanfs.c:103-105 | header i's offset is base + sum of the lengths of entries before i, modulo 2^32 |
| VulcanFS.FirstOffsetIsBase | vulcanfs.c:103 | the first header's offset is the starting cursor |
| VulcanFS.TilesModulo | vulcanfs.c:39-40 | header i+1 starts where header i ends, modulo 2^32, and the final cursor is where the last header ends |
| VulcanFS.TilesExactly | vulcanfs.c:103-105 | without wrap-around: offsets are exact prefix sums, consecutive entries tile with no gap or overlap, and the final cursor is base + total length |
| VulcanFS.NoOverlap | vulcanfs.c:104-105 | without wrap-around: for i < j, entry i's byte range ends at or before entry j's start, every range starts at or after the base and ends at or before the final cursor |
| VulcanFS.SumLengthsMonotone | vulcanfs.c:104-105 | proof helper for `NoOverlap`: the total of the header lengths, taken without wrap-around, never decreases as entries are added (the C cursor itself can go down when it wraps) |
| VulcanFS.Arguments.constructor | vulcanfs.c:74-75 | both 128-slot arrays exist and both counters start at zero |
| VulcanFS.Arguments.AddPath | vulcanfs.c:79-81 | `-f` appends its path to the stored paths and leaves the names alone; needs a free slot because the store is unchecked |
| VulcanFS.Arguments.AddName | vulcanfs.c:83-85 | `-n` appends its name to the stored names and leaves the paths alone; needs a free slot because the store is unchecked |
| VulcanFS.Arguments.Entries | vulcanfs.c:101-105 | with equal counts, the stored arguments give one entry per `-f` path, entry i pairing `file_path[i]` with `file_name[i]` |
| VulcanFS.PlanHeaders | vulcanfs.c:102-105 | the cursor starts at `HEADER_SIZE * 64 + INT_SIZE`; afterwards `vfs[0..count)` equals the planned headers for the i-th path paired with the i-th name, the cursor equals the planned final cursor, and slots at index >= count are unchanged |
| VulcanFS.BuildHeaderTable | vulcanfs.c:99-109 | with equal path and name counts the table is planned and the exit status is 0; otherwise the exit status is 1 and the table is untouched |

## Left out

- Command-line parsing with `getopt_long`, the `argc < 2` check, the help text and
  its exit paths (vulcanfs.c:50-97). These are CLI plumbing. The model starts from
  the `Arguments` store that the `-f` and `-n` cases fill.
- Opening each source file and measuring it with `fopen`/`fseek`/`ftell`
  (vulcanfs.c:31-37, 44). This is file I/O. The sizes are the parameter
  `fs: FileSystem`, a function from path to byte size.
- The `exit(EXIT_FAILURE)` when a source file cannot be opened (vulcanfs.c:32-35).
  The model assumes every path can be measured. An `ftell` error value is not
  modelled either.
- The progress `printf` in `setup_header`, the `puts` of the count-mismatch
  message and the echo of paths and names at the end of `main` (vulcanfs.c:27,
  107, 111-119). These are output only.
- The byte layout of `struct vulcanfs_header`: padding, byte order, and the
  bytes of `name` after the terminator, which `strcpy` leaves as they were.
  `Header.name` holds the bytes before the terminator.
- The allocation of `vfs_h` inside `main` (vulcanfs.c:102). `PlanHeaders` and
  `BuildHeaderTable` take the table as an array with arbitrary contents, which
  stands for the uninitialised local array.
- Encoding or writing an image. `vulcanfs.c` has no such code.
