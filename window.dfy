/** The register window each driver maps once from /dev/mem.
    The mapping system calls are outside the model; what stays is their
    outcome and the page arithmetic done in C `unsigned int`. */
module RegisterWindow {

  /** A value of C `errno` after a failed call: a positive error number. */
  type ErrorNumber = e: int | e > 0 witness 1

  /** How the `open("/dev/mem")` and `mmap` calls of an init function end. */
  datatype Access =
    | Mapped                            // both calls succeed
    | OpenFailed(errno: ErrorNumber)    // `open` fails; `errno` is what it set
    | MapFailed(errno: ErrorNumber)     // `mmap` returns MAP_FAILED; `errno` is what it set

  /** The page-aligned start that is mapped, the register block's offset in
      it, and the number of bytes mapped. */
  datatype Window = Window(start: bv32, offset: bv32, length: bv32)

  /** What `sysconf(_SC_PAGESIZE)` returns: a power of two. */
  predicate IsPageSize(p: bv32) {
    p != 0 && p & (p - 1) == 0
  }

  /** `~(page_size - 1)` */
  function PageMask(p: bv32): bv32 {
    !(p - 1)
  }

  /** `addr_start = base & page_mask`: a page boundary, at or below `base`. */
  function PageStart(base: bv32, p: bv32): (s: bv32)
    requires IsPageSize(p)
    ensures s & (p - 1) == 0
  {
    base & PageMask(p)
  }

  /** `addr_offset = base & ~page_mask`: the distance into that page. */
  function PageOffset(base: bv32, p: bv32): (o: bv32)
    requires IsPageSize(p)
    ensures o < p
  {
    base & !PageMask(p)
  }

  /** The start and the offset put back together give the base address. */
  lemma StartPlusOffset(base: bv32, p: bv32)
    requires IsPageSize(p)
    ensures PageStart(base, p) + PageOffset(base, p) == base
  {
  }

  /** `((block_size + addr_offset) / page_size + 1) * page_size`, in 32-bit
      unsigned arithmetic. */
  function BlockLength(blockSize: bv32, offset: bv32, p: bv32): bv32
    requires p != 0
  {
    ((blockSize + offset) / p + 1) * p
  }

  /** The window of the LRADC and PWM init functions. */
  function BlockWindow(base: bv32, blockSize: bv32, p: bv32): (w: Window)
    requires IsPageSize(p)
    ensures w.start + w.offset == base
    ensures w.start & (p - 1) == 0 && w.offset < p
  {
    var offset := PageOffset(base, p);
    StartPlusOffset(base, p);
    Window(PageStart(base, p), offset, BlockLength(blockSize, offset, p))
  }

  /** The window of the GPIO init function, which maps two pages. */
  function TwoPageWindow(base: bv32, p: bv32): (w: Window)
    requires IsPageSize(p)
    ensures w.start + w.offset == base
    ensures w.start & (p - 1) == 0 && w.offset < p
  {
    StartPlusOffset(base, p);
    Window(PageStart(base, p), PageOffset(base, p), p * 2)
  }

  /** The mapping reaches past the last register of the block. */
  predicate Covers(w: Window, blockSize: bv32) {
    w.offset as int + blockSize as int <= w.length as int
  }

  /** The page sizes Linux uses on ARM: 4 KiB on 32-bit ARM, and 4 KiB,
      16 KiB or 64 KiB on arm64. */
  predicate ArmPageSize(p: bv32) {
    p == 0x1000 || p == 0x4000 || p == 0x1_0000
  }
}
