/** The equalization/demodulation task of one (frame, uplink symbol,
    subcarrier block): gather each subcarrier's samples from all antennas,
    multiply them by the subcarrier's zero-forcing matrix, and accumulate the
    pilot-based phase estimate of the frame. */
module Demul {
  import opened Symbols
  import opened Message
  import opened ComplexArith

  /** The run-time configuration the kernel consults. The three accessors
      whose bodies live in the configuration object are function values. */
  datatype Config = Config(
    bsAntNum: nat,
    ueNum: nat,
    ofdmDataNum: nat,
    ofdmPilotSpacing: nat,
    demulBlockSize: nat,
    numUlSyms: nat,
    /** kUsePartialTrans: samples are stored in the partially transposed layout */
    usePartialTrans: bool,
    /** Frame().GetULSymbolIdx: index of a symbol among the uplink symbols */
    ulSymbolIdx: nat -> nat,
    /** GetTotalDataSymbolIdxUl: row of the data and equalized tables */
    totalDataSymbolIdxUl: (nat, nat) -> nat,
    /** GetZfScId: which zero-forcing matrix serves a subcarrier */
    zfScId: nat -> nat)

  /** kUseSIMDGather */
  const UseSimdGather := true

  /** How far the SIMD gather advances its source per group of four antennas:
      kSCsPerCacheline * kTransposeBlockSize floats, i.e. half as many complex samples. */
  const SimdSourceStride: nat := SCsPerCacheline * TransposeBlockSize / 2

  // ---------------------------------------------------------------------------
  // Index arithmetic
  // ---------------------------------------------------------------------------

  lemma MulMono(a: nat, b: nat, w: nat)
    requires a <= b
    ensures a * w <= b * w
  {
  }

  /** Position of element (major, minor) in a row-major block of `rows` rows
      of `width` elements. */
  function Cell(rows: nat, width: nat, major: nat, minor: nat): (c: nat)
    requires major < rows && minor < width
    ensures major * width <= c < major * width + width
    ensures c < rows * width
  {
    MulMono(major + 1, rows, width);
    major * width + minor
  }

  /** A cell of an earlier major index lies below every cell of a later one. */
  lemma CellBefore(rows: nat, width: nat, m1: nat, n1: nat, m2: nat)
    requires m1 < m2 <= rows && n1 < width
    ensures Cell(rows, width, m1, n1) < m2 * width
  {
    MulMono(m1 + 1, m2, width);
  }

  /** A cell's position divided by the width recovers its major and minor
      indices. */
  lemma CellDivMod(rows: nat, width: nat, major: nat, minor: nat)
    requires major < rows && minor < width
    ensures Cell(rows, width, major, minor) / width == major
    ensures Cell(rows, width, major, minor) % width == minor
  {
    var c := Cell(rows, width, major, minor);
    ColumnOwner(major, major + 1, width, c);
  }

  /** A column in [lo * width, hi * width) belongs to a row in [lo, hi). */
  lemma ColumnOwner(lo: nat, hi: nat, width: nat, c: nat)
    requires lo * width <= c < hi * width
    ensures width > 0 && lo <= c / width < hi && c % width < width
    ensures c == c / width * width + c % width
  {
    if width > 0 {
      var q := c / width;
      if q < lo {
        MulMono(q + 1, lo, width);
      } else if q >= hi {
        MulMono(hi, q, width);
      }
    }
  }

  /** Number of transpose blocks needed to hold `n` subcarriers. */
  function TransposeBlocks(n: nat): (blocks: nat) {
    (n + TransposeBlockSize - 1) / TransposeBlockSize
  }

  /** Length a data row needs for the configured layout. */
  function DataRowLen(cfg: Config): (len: nat) {
    if cfg.usePartialTrans then TransposeBlocks(cfg.ofdmDataNum) * (TransposeBlockSize * cfg.bsAntNum)
    else cfg.bsAntNum * cfg.ofdmDataNum
  }

  /** First sample of the transpose block that holds subcarrier `sc`. */
  function PartialTransposeBase(cfg: Config, sc: nat): (base: nat) {
    (sc / TransposeBlockSize) * (TransposeBlockSize * cfg.bsAntNum)
  }

  /** Where the sample of antenna `ant` at subcarrier `sc` lies in a data row:
      in the partially transposed layout, inside the block of `sc`, after
      `ant` runs of TransposeBlockSize subcarriers; otherwise antenna-major. */
  function SampleIndex(cfg: Config, ant: nat, sc: nat): (idx: nat)
    requires ant < cfg.bsAntNum && sc < cfg.ofdmDataNum
    ensures idx < DataRowLen(cfg)
  {
    if cfg.usePartialTrans then
      SampleIndexFits(cfg, ant, sc);
      PartialTransposeBase(cfg, sc) + ant * TransposeBlockSize + sc % TransposeBlockSize
    else
      MulMono(ant + 1, cfg.bsAntNum, cfg.ofdmDataNum);
      ant * cfg.ofdmDataNum + sc
  }

  lemma SampleIndexFits(cfg: Config, ant: nat, sc: nat)
    requires cfg.usePartialTrans && ant < cfg.bsAntNum && sc < cfg.ofdmDataNum
    ensures PartialTransposeBase(cfg, sc) + ant * TransposeBlockSize + sc % TransposeBlockSize < DataRowLen(cfg)
  {
    var T, N := TransposeBlockSize, cfg.bsAntNum;
    var b := sc / T;
    assert b + 1 <= TransposeBlocks(cfg.ofdmDataNum);
    MulMono(ant + 1, N, T);
    assert ant * T + sc % T < N * T;
    MulMono(b + 1, TransposeBlocks(cfg.ofdmDataNum), T * N);
    assert (b + 1) * (T * N) == b * (T * N) + T * N;
  }

  /** In the partially transposed layout a sample's address splits back into
      its transpose block, its antenna and its offset in the block. */
  lemma PartialIndexSplits(cfg: Config, ant: nat, sc: nat)
    requires cfg.usePartialTrans && ant < cfg.bsAntNum && sc < cfg.ofdmDataNum
    ensures SampleIndex(cfg, ant, sc) / (TransposeBlockSize * cfg.bsAntNum) == sc / TransposeBlockSize
    ensures SampleIndex(cfg, ant, sc) % (TransposeBlockSize * cfg.bsAntNum) / TransposeBlockSize == ant
    ensures SampleIndex(cfg, ant, sc) % (TransposeBlockSize * cfg.bsAntNum) % TransposeBlockSize == sc % TransposeBlockSize
  {
    var T, N := TransposeBlockSize, cfg.bsAntNum;
    var inner := Cell(N, T, ant, sc % T);
    CellDivMod(N, T, ant, sc % T);
    assert sc / T < TransposeBlocks(cfg.ofdmDataNum);
    assert inner < T * N;
    CellDivMod(TransposeBlocks(cfg.ofdmDataNum), T * N, sc / T, inner);
    assert SampleIndex(cfg, ant, sc) == Cell(TransposeBlocks(cfg.ofdmDataNum), T * N, sc / T, inner);
  }

  /** Distinct samples have distinct addresses, in either layout: the data
      row holds every (antenna, subcarrier) sample in a cell of its own. */
  lemma SampleIndexInjective(cfg: Config, a1: nat, s1: nat, a2: nat, s2: nat)
    requires a1 < cfg.bsAntNum && s1 < cfg.ofdmDataNum && a2 < cfg.bsAntNum && s2 < cfg.ofdmDataNum
    ensures SampleIndex(cfg, a1, s1) == SampleIndex(cfg, a2, s2) <==> a1 == a2 && s1 == s2
  {
    if cfg.usePartialTrans {
      PartialIndexSplits(cfg, a1, s1);
      PartialIndexSplits(cfg, a2, s2);
      if SampleIndex(cfg, a1, s1) == SampleIndex(cfg, a2, s2) {
        assert s1 / TransposeBlockSize == s2 / TransposeBlockSize && s1 % TransposeBlockSize == s2 % TransposeBlockSize;
      }
    } else {
      CellDivMod(cfg.bsAntNum, cfg.ofdmDataNum, a1, s1);
      CellDivMod(cfg.bsAntNum, cfg.ofdmDataNum, a2, s2);
    }
  }

  /** A cache-line-aligned run of subcarriers never straddles a transpose block. */
  lemma SameTransposeBlock(s0: nat, j: nat)
    requires s0 % SCsPerCacheline == 0 && j < SCsPerCacheline
    ensures (s0 + j) / TransposeBlockSize == s0 / TransposeBlockSize
    ensures (s0 + j) % TransposeBlockSize == s0 % TransposeBlockSize + j
  {
    var q, r := s0 / TransposeBlockSize, s0 % TransposeBlockSize;
    assert s0 == q * TransposeBlockSize + r;
    assert r % SCsPerCacheline == 0;
    assert r + j < TransposeBlockSize;
  }

  /** The source index of the scalar gather (lines 129-133) for subcarrier
      `s0 + j` of the cache line starting at `s0` and antenna `ant`. */
  function ScalarGatherIndex(cfg: Config, s0: nat, j: nat, ant: nat): (i: nat) {
    if cfg.usePartialTrans then
      PartialTransposeBase(cfg, s0) + ant * TransposeBlockSize + (s0 + j) % TransposeBlockSize
    else ant * cfg.ofdmDataNum + s0 + j
  }

  /** The scalar gather reads exactly the sample the layout assigns. */
  lemma ScalarGatherAgrees(cfg: Config, s0: nat, j: nat, ant: nat)
    requires s0 % SCsPerCacheline == 0 && j < SCsPerCacheline
    requires ant < cfg.bsAntNum && s0 + j < cfg.ofdmDataNum
    ensures ScalarGatherIndex(cfg, s0, j, ant) == SampleIndex(cfg, ant, s0 + j)
  {
    SameTransposeBlock(s0, j);
  }

  /** The source index of lane `lane` of the SIMD gather for subcarrier
      `s0 + j` in antenna group `group` (lines 104-119): the source starts at
      the block base plus the offset of `s0`, advances SimdSourceStride per
      group, and the gather indices pick complex offsets 0, T, 2T, 3T. */
  function SimdGatherIndex(cfg: Config, s0: nat, group: nat, lane: nat, j: nat): (i: nat) {
    PartialTransposeBase(cfg, s0) + s0 % TransposeBlockSize + group * SimdSourceStride
      + lane * TransposeBlockSize + j
  }

  /** The SIMD gather reads, for antenna 4 * group + lane, exactly the sample
      the layout assigns: the two gather paths agree. */
  lemma SimdGatherAgrees(cfg: Config, s0: nat, group: nat, lane: nat, j: nat)
    requires cfg.usePartialTrans
    requires s0 % SCsPerCacheline == 0 && j < SCsPerCacheline && lane < 4
    requires 4 * group + lane < cfg.bsAntNum && s0 + j < cfg.ofdmDataNum
    ensures SimdGatherIndex(cfg, s0, group, lane, j) == SampleIndex(cfg, 4 * group + lane, s0 + j)
  {
    SameTransposeBlock(s0, j);
    assert group * SimdSourceStride + lane * TransposeBlockSize == (4 * group + lane) * TransposeBlockSize;
  }

  // ---------------------------------------------------------------------------
  // Equalization and phase tracking, as functions
  // ---------------------------------------------------------------------------

  /** Entry `u` of the product of a column-major `rows` x |x| matrix `z`
      with the vector `x`: the sum over antennas a of z[a*rows + u] * x[a]. */
  function MatVecEntry(z: seq<Complex>, x: seq<Complex>, rows: nat, u: nat): (e: Complex)
    requires u < rows && |x| * rows <= |z|
  {
    if |x| == 0 then Zero
    else
      var n := |x| - 1;
      MulMono(n, |x|, rows);
      Add(MatVecEntry(z, x[..n], rows, u), Mul(z[Cell(|x|, rows, n, u)], x[n]))
  }

  /** One step of the sum: the entry over |x| antennas is the entry over the
      first |x| - 1 plus the last antenna's term. */
  lemma MatVecUnfold(z: seq<Complex>, x: seq<Complex>, rows: nat, u: nat)
    requires u < rows && |x| * rows <= |z| && |x| > 0
    ensures (|x| - 1) * rows <= |z|
    ensures MatVecEntry(z, x, rows, u)
         == Add(MatVecEntry(z, x[..|x| - 1], rows, u), Mul(z[Cell(|x|, rows, |x| - 1, u)], x[|x| - 1]))
  {
    MulMono(|x| - 1, |x|, rows);
  }

  /** A UE whose row of the matrix is all zero receives zero, whatever the
      receive vector. */
  lemma {:induction false} ZeroRowEqualizesToZero(z: seq<Complex>, x: seq<Complex>, rows: nat, u: nat)
    requires u < rows && |x| * rows <= |z|
    requires forall a | 0 <= a < |x| :: z[Cell(|x|, rows, a, u)] == Zero
    ensures MatVecEntry(z, x, rows, u) == Zero
  {
    if |x| > 0 {
      var n := |x| - 1;
      MatVecUnfold(z, x, rows, u);
      ZeroRowPrefix(z, |x|, n, rows, u);
      ZeroRowEqualizesToZero(z, x[..n], rows, u);
      ZeroSumStep(MatVecEntry(z, x[..n], rows, u), z[Cell(|x|, rows, n, u)], x[n]);
    }
  }

  /** A matrix whose row `u` selects antenna 0 (one in column 0, zero
      elsewhere) passes antenna 0's sample through unchanged. */
  lemma {:induction false} SelectAntennaZero(z: seq<Complex>, x: seq<Complex>, rows: nat, u: nat)
    requires u < rows && |x| * rows <= |z| && |x| > 0
    requires z[u] == One
    requires forall a | 0 < a < |x| :: z[Cell(|x|, rows, a, u)] == Zero
    ensures MatVecEntry(z, x, rows, u) == x[0]
  {
    var n := |x| - 1;
    if n == 0 {
      assert x[..0] == [];
    } else {
      MulMono(n, |x|, rows);
      forall a | 0 < a < n ensures z[Cell(n, rows, a, u)] == Zero {
        assert Cell(n, rows, a, u) == Cell(|x|, rows, a, u);
      }
      SelectAntennaZero(z, x[..n], rows, u);
      assert x[..n][0] == x[0];
    }
  }

  /** An all-zero receive vector equalizes to zero, whatever the matrix. */
  lemma {:induction false} ZeroVectorEqualizesToZero(z: seq<Complex>, x: seq<Complex>, rows: nat, u: nat)
    requires u < rows && |x| * rows <= |z|
    requires forall a | 0 <= a < |x| :: x[a] == Zero
    ensures MatVecEntry(z, x, rows, u) == Zero
  {
    if |x| > 0 {
      var n := |x| - 1;
      MatVecUnfold(z, x, rows, u);
      assert forall a | 0 <= a < n :: x[..n][a] == Zero;
      ZeroVectorEqualizesToZero(z, x[..n], rows, u);
      ZeroSumStep(MatVecEntry(z, x[..n], rows, u), z[Cell(|x|, rows, n, u)], x[n]);
    }
  }

  /** A row that is zero over the first m antennas is zero over any shorter prefix. */
  lemma ZeroRowPrefix(z: seq<Complex>, m: nat, n: nat, rows: nat, u: nat)
    requires n <= m && u < rows && m * rows <= |z|
    requires forall a | 0 <= a < m :: z[Cell(m, rows, a, u)] == Zero
    ensures forall a | 0 <= a < n :: z[Cell(n, rows, a, u)] == Zero
  {
    forall a | 0 <= a < n ensures z[Cell(n, rows, a, u)] == Zero {
      assert Cell(n, rows, a, u) == Cell(m, rows, a, u);
    }
  }

  /** Adding a product with a zero factor to zero gives zero. */
  lemma ZeroSumStep(acc: Complex, c: Complex, d: Complex)
    requires acc == Zero && (c == Zero || d == Zero)
    ensures Add(acc, Mul(c, d)) == Zero
  {
  }

  /** Subcarriers processed by one task: at most a demul block (DemulBlockSize), and never
      past the last data subcarrier. */
  function BlockLen(cfg: Config, baseScId: nat): (n: nat)
    requires baseScId <= cfg.ofdmDataNum
    ensures n <= cfg.demulBlockSize && baseScId + n <= cfg.ofdmDataNum
    ensures n == cfg.demulBlockSize || baseScId + n == cfg.ofdmDataNum
  {
    if cfg.demulBlockSize <= cfg.ofdmDataNum - baseScId then cfg.demulBlockSize
    else cfg.ofdmDataNum - baseScId
  }

  /** Two tables of the same shape that agree cell by cell are equal. */
  lemma TablesEqual<T>(a: seq<seq<T>>, b: seq<seq<T>>)
    requires |a| == |b| && forall r | 0 <= r < |a| :: |a[r]| == |b[r]|
    requires forall r, c | 0 <= r < |a| && 0 <= c < |a[r]| :: a[r][c] == b[r][c]
    ensures a == b
  {
    forall r | 0 <= r < |a| ensures a[r] == b[r] {
      assert |a[r]| == |b[r]|;
    }
  }

  /** Within an aligned block whose length is a whole number of cache
      lines, every aligned start below the end leaves room for a whole
      line, and the next line is aligned too: the outer loop of the kernel
      (lines 89-190) visits whole cache lines only. */
  lemma CacheLineFits(base: nat, len: nat, s0: nat)
    requires base % SCsPerCacheline == 0 && len % SCsPerCacheline == 0
    requires base <= s0 < base + len && s0 % SCsPerCacheline == 0
    ensures s0 + SCsPerCacheline <= base + len && (s0 + SCsPerCacheline) % SCsPerCacheline == 0
  {
    assert (base + len) % SCsPerCacheline == 0;
  }

  function FrameSlot(frameId: nat): (s: nat)
    ensures s < FrameWnd
  {
    frameId % FrameWnd
  }

  /** The slot `(frame_id - 1) % kFrameWnd` with `size_t` arithmetic: the
      subtraction wraps to 2^64 - 1 for frame 0. It is never the frame's
      own slot. */
  function PrevFrameSlot(frameId: nat): (s: nat)
    requires frameId < SizeModulus
    ensures s < FrameWnd && s != FrameSlot(frameId)
    ensures frameId > 0 ==> s == FrameSlot(frameId - 1)
    ensures frameId == 0 ==> s == 15
  {
    ((frameId + SizeModulus - 1) % SizeModulus) % FrameWnd
  }

  /** The transposed UE pilot matrix: the configuration stores it column-major
      as OfdmDataNum rows by UeNum columns, and the kernel reads row `u`,
      column `sc` of its transpose. */
  function PilotTranspose(raw: seq<Complex>, ofdmDataNum: nat, ueNum: nat): (m: seq<seq<Complex>>)
    requires |raw| == ofdmDataNum * ueNum
    ensures |m| == ueNum
    ensures forall u | 0 <= u < ueNum :: |m[u]| == ofdmDataNum
    ensures forall u, sc | 0 <= u < ueNum && 0 <= sc < ofdmDataNum ::
      m[u][sc] == raw[Cell(ueNum, ofdmDataNum, u, sc)]
  {
    seq(ueNum, u requires 0 <= u < ueNum =>
      seq(ofdmDataNum, sc requires 0 <= sc < ofdmDataNum => raw[Cell(ueNum, ofdmDataNum, u, sc)]))
  }

  /** Transposing loses nothing: raw entry i, which is UE i / OfdmDataNum at
      subcarrier i % OfdmDataNum, is found at that position of the matrix. */
  lemma PilotTransposeKeepsEntries(raw: seq<Complex>, ofdmDataNum: nat, ueNum: nat)
    requires |raw| == ofdmDataNum * ueNum
    ensures forall i | 0 <= i < |raw| ::
      ofdmDataNum > 0 && i / ofdmDataNum < ueNum &&
      PilotTranspose(raw, ofdmDataNum, ueNum)[i / ofdmDataNum][i % ofdmDataNum] == raw[i]
  {
    var m := PilotTranspose(raw, ofdmDataNum, ueNum);
    forall i | 0 <= i < |raw|
      ensures ofdmDataNum > 0 && i / ofdmDataNum < ueNum && m[i / ofdmDataNum][i % ofdmDataNum] == raw[i]
    {
      ColumnOwner(0, ueNum, ofdmDataNum, i);
      assert Cell(ueNum, ofdmDataNum, i / ofdmDataNum, i % ofdmDataNum) == i;
    }
  }

  // ---------------------------------------------------------------------------
  // The kernel
  // ---------------------------------------------------------------------------

  class DoDemul {
    const cfg: Config
    /** data_buffer_: one row per uplink data symbol, samples in the configured layout */
    const dataBuffer: seq<seq<Complex>>
    /** ul_zf_matrices_: per frame slot and zero-forcing subcarrier, a column-major UeNum x BsAntNum matrix */
    const ulZfMatrices: seq<seq<seq<Complex>>>
    /** ue_spec_pilot_buffer_: per frame slot, UeNum accumulators per uplink symbol */
    const ueSpecPilotBuffer: array2<Complex>
    /** equal_buffer_: one row per uplink data symbol, UeNum values per subcarrier */
    const equalBuffer: array2<Complex>
    /** data_gather_buffer_: kSCsPerCacheline rows of BsAntNum samples */
    const dataGatherBuffer: array<Complex>
    /** ue_pilot_data_: the known pilot of each UE at each data subcarrier */
    const uePilotData: seq<seq<Complex>>
    /** The elementwise complex sign of the numeric library. */
    const sign: Complex -> Complex

    ghost predicate Valid()
    {
      && cfg.bsAntNum <= MaxAntennas
      && cfg.ofdmPilotSpacing > 0
      && (forall r | 0 <= r < |dataBuffer| :: |dataBuffer[r]| >= DataRowLen(cfg))
      && equalBuffer.Length1 >= cfg.ofdmDataNum * cfg.ueNum
      && ueSpecPilotBuffer.Length0 == FrameWnd
      && ueSpecPilotBuffer.Length1 >= cfg.numUlSyms * cfg.ueNum
      && |ulZfMatrices| == FrameWnd
      && (forall s | 0 <= s < FrameWnd :: |ulZfMatrices[s]| == ZfColumns())
      && (forall s, k | 0 <= s < FrameWnd && 0 <= k < ZfColumns() ::
            |ulZfMatrices[s][k]| == cfg.ueNum * cfg.bsAntNum)
      && dataGatherBuffer.Length == SCsPerCacheline * MaxAntennas
      && |uePilotData| == cfg.ueNum
      && (forall u | 0 <= u < cfg.ueNum :: |uePilotData[u]| == cfg.ofdmDataNum)
      && equalBuffer != ueSpecPilotBuffer
    }

    /** Number of zero-forcing matrices per frame slot. */
    function ZfColumns(): (n: nat) {
      if |ulZfMatrices| == 0 then 0 else |ulZfMatrices[0]|
    }

    /** The constructor keeps references to the shared tables, allocates the
        gather scratch and transposes the UE pilot matrix. */
    constructor (cfg: Config, dataBuffer: seq<seq<Complex>>, ulZfMatrices: seq<seq<seq<Complex>>>,
                 ueSpecPilotBuffer: array2<Complex>, equalBuffer: array2<Complex>,
                 uePilotRaw: seq<Complex>, sign: Complex -> Complex)
      requires cfg.bsAntNum <= MaxAntennas && cfg.ofdmPilotSpacing > 0
      requires forall r | 0 <= r < |dataBuffer| :: |dataBuffer[r]| >= DataRowLen(cfg)
      requires equalBuffer.Length1 >= cfg.ofdmDataNum * cfg.ueNum
      requires ueSpecPilotBuffer.Length0 == FrameWnd && ueSpecPilotBuffer.Length1 >= cfg.numUlSyms * cfg.ueNum
      requires |ulZfMatrices| == FrameWnd
      requires forall s | 0 <= s < FrameWnd :: |ulZfMatrices[s]| == |ulZfMatrices[0]|
      requires forall s, k | 0 <= s < FrameWnd && 0 <= k < |ulZfMatrices[0]| ::
        |ulZfMatrices[s][k]| == cfg.ueNum * cfg.bsAntNum
      requires |uePilotRaw| == cfg.ofdmDataNum * cfg.ueNum
      requires equalBuffer != ueSpecPilotBuffer
      ensures Valid() && fresh(dataGatherBuffer)
      ensures this.cfg == cfg && this.dataBuffer == dataBuffer && this.ulZfMatrices == ulZfMatrices
      ensures this.ueSpecPilotBuffer == ueSpecPilotBuffer && this.equalBuffer == equalBuffer && this.sign == sign
      ensures uePilotData == PilotTranspose(uePilotRaw, cfg.ofdmDataNum, cfg.ueNum)
    {
      this.cfg := cfg;
      this.dataBuffer := dataBuffer;
      this.ulZfMatrices := ulZfMatrices;
      this.ueSpecPilotBuffer := ueSpecPilotBuffer;
      this.equalBuffer := equalBuffer;
      this.sign := sign;
      this.dataGatherBuffer := new Complex[SCsPerCacheline * MaxAntennas](_ => Zero);
      this.uePilotData := PilotTranspose(uePilotRaw, cfg.ofdmDataNum, cfg.ueNum);
    }

    /** The received sample of antenna `ant` at subcarrier `sc` in data row `row`. */
    ghost function Sample(row: nat, ant: nat, sc: nat): (x: Complex)
      requires Valid()
      requires row < |dataBuffer| && ant < cfg.bsAntNum && sc < cfg.ofdmDataNum
    {
      dataBuffer[row][SampleIndex(cfg, ant, sc)]
    }

    /** The receive vector of subcarrier `sc`: one sample per antenna. */
    ghost function ReceiveVector(row: nat, sc: nat): (x: seq<Complex>)
      requires Valid()
      requires row < |dataBuffer| && sc < cfg.ofdmDataNum
      ensures |x| == cfg.bsAntNum
      ensures forall a | 0 <= a < cfg.bsAntNum :: x[a] == Sample(row, a, sc)
    {
      seq(cfg.bsAntNum, a requires 0 <= a < cfg.bsAntNum => Sample(row, a, sc))
    }

    /** The zero-forcing estimate of UE `u` at subcarrier `sc`. */
    ghost function Equalized(row: nat, slot: nat, sc: nat, u: nat): (e: Complex)
      requires Valid()
      requires row < |dataBuffer| && slot < FrameWnd && sc < cfg.ofdmDataNum && u < cfg.ueNum
      requires cfg.zfScId(sc) < ZfColumns()
    {
      MatVecEntry(ulZfMatrices[slot][cfg.zfScId(sc)], ReceiveVector(row, sc), cfg.ueNum, u)
    }

    /** The majority-vote phase contribution of UE `u` at subcarrier `sc`. */
    ghost function PhaseTerm(row: nat, slot: nat, sc: nat, u: nat): (p: Complex)
      requires Valid()
      requires row < |dataBuffer| && slot < FrameWnd && sc < cfg.ofdmDataNum && u < cfg.ueNum
      requires cfg.zfScId(sc) < ZfColumns()
    {
      sign(Mul(Equalized(row, slot, sc, u), Conj(uePilotData[u][sc])))
    }

    /** Sum of the phase contributions of UE `u` over the pilot-spaced
        subcarriers in [lo, hi). */
    ghost function PhaseSum(row: nat, slot: nat, lo: nat, hi: nat, u: nat): (p: Complex)
      requires Valid()
      requires row < |dataBuffer| && slot < FrameWnd && lo <= hi <= cfg.ofdmDataNum && u < cfg.ueNum
      requires forall sc | lo <= sc < hi :: cfg.zfScId(sc) < ZfColumns()
      decreases hi - lo
    {
      if hi == lo then Zero
      else
        var sum := PhaseSum(row, slot, lo, hi - 1, u);
        if (hi - 1) % cfg.ofdmPilotSpacing == 0 then Add(sum, PhaseTerm(row, slot, hi - 1, u)) else sum
    }

    /** A run of subcarriers with no pilot-spaced one contributes nothing. */
    lemma {:induction false} PhaseSumSkipsDataSubcarriers(row: nat, slot: nat, lo: nat, hi: nat, u: nat)
      requires Valid()
      requires row < |dataBuffer| && slot < FrameWnd && lo <= hi <= cfg.ofdmDataNum && u < cfg.ueNum
      requires forall sc | lo <= sc < hi :: cfg.zfScId(sc) < ZfColumns()
      requires forall sc | lo <= sc < hi :: sc % cfg.ofdmPilotSpacing != 0
      ensures PhaseSum(row, slot, lo, hi, u) == Zero
      decreases hi - lo
    {
      if hi > lo {
        PhaseSumSkipsDataSubcarriers(row, slot, lo, hi - 1, u);
      }
    }

    /** symbol_idx_ul of a task (line 69). */
    function SymbolIdxUl(tag: GenTag): (idx: nat) {
      cfg.ulSymbolIdx(tag.symbolId)
    }

    /** total_data_symbol_idx_ul of a task (lines 70-71): its row of the
        data and equalization buffers. */
    function TaskRow(tag: GenTag): (row: nat) {
      cfg.totalDataSymbolIdxUl(tag.frameId, SymbolIdxUl(tag))
    }

    /** The parameters of one task, derived from its tag, address what the
        kernel touches. */
    predicate TaskFits(tag: GenTag)
    {
      && tag.frameId < SizeModulus
      && tag.scId <= cfg.ofdmDataNum
      && tag.scId % SCsPerCacheline == 0
      && BlockLen(cfg, tag.scId) % SCsPerCacheline == 0
      && SymbolIdxUl(tag) < cfg.numUlSyms
      && TaskRow(tag) < |dataBuffer| && TaskRow(tag) < equalBuffer.Length0
      && (forall sc | tag.scId <= sc < tag.scId + BlockLen(cfg, tag.scId) :: cfg.zfScId(sc) < ZfColumns())
    }

    /** The phase accumulator cell (r, c) after the demodulation task has processed the
        subcarriers [lo, hi) of its block, given its value `before`: the
        task's own column of its frame slot gains the phase sum of those
        subcarriers, and when the range holds subcarrier 0 of uplink symbol 0
        the previous frame slot is cleared. */
    ghost function PhaseAfter(tag: GenTag, lo: nat, hi: nat, r: nat, c: nat, before: Complex): (after: Complex)
      requires Valid() && TaskFits(tag)
      requires tag.scId <= lo <= hi <= tag.scId + BlockLen(cfg, tag.scId)
    {
      var col := SymbolIdxUl(tag) * cfg.ueNum;
      if r == FrameSlot(tag.frameId) && col <= c < col + cfg.ueNum then
        Add(before, PhaseSum(TaskRow(tag), FrameSlot(tag.frameId), lo, hi, c - col))
      else if r == PrevFrameSlot(tag.frameId) && c < cfg.numUlSyms * cfg.ueNum
              && SymbolIdxUl(tag) == 0 && lo == 0 < hi then
        Zero
      else before
    }

    /** Phase sums over adjacent ranges add up. */
    lemma {:induction false} PhaseSumSplit(row: nat, slot: nat, lo: nat, mid: nat, hi: nat, u: nat)
      requires Valid()
      requires row < |dataBuffer| && slot < FrameWnd && lo <= mid <= hi <= cfg.ofdmDataNum && u < cfg.ueNum
      requires forall sc | lo <= sc < hi :: cfg.zfScId(sc) < ZfColumns()
      ensures PhaseSum(row, slot, lo, hi, u) == Add(PhaseSum(row, slot, lo, mid, u), PhaseSum(row, slot, mid, hi, u))
      decreases hi - mid
    {
      if hi > mid {
        PhaseSumSplit(row, slot, lo, mid, hi - 1, u);
      }
    }

    /** Processing [lo, mid) and then [mid, hi) leaves every accumulator as
        processing [lo, hi) at once does. */
    lemma PhaseAfterCompose(tag: GenTag, lo: nat, mid: nat, hi: nat, r: nat, c: nat, before: Complex)
      requires Valid() && TaskFits(tag)
      requires tag.scId <= lo <= mid <= hi <= tag.scId + BlockLen(cfg, tag.scId)
      ensures PhaseAfter(tag, mid, hi, r, c, PhaseAfter(tag, lo, mid, r, c, before)) == PhaseAfter(tag, lo, hi, r, c, before)
    {
      var col := SymbolIdxUl(tag) * cfg.ueNum;
      if r == FrameSlot(tag.frameId) && col <= c < col + cfg.ueNum {
        PhaseSumSplit(TaskRow(tag), FrameSlot(tag.frameId), lo, mid, hi, c - col);
      }
    }

    /** Everything the gather step promises for the cache line starting at `s0`. */
    ghost predicate Gathered(row: nat, s0: nat)
      reads dataGatherBuffer
      requires Valid() && row < |dataBuffer| && s0 + SCsPerCacheline <= cfg.ofdmDataNum
    {
      forall j, a | 0 <= j < SCsPerCacheline && 0 <= a < cfg.bsAntNum ::
        dataGatherBuffer[Cell(SCsPerCacheline, cfg.bsAntNum, j, a)] == Sample(row, a, s0 + j)
    }

    /** Step 1 (lines 90-137): the SIMD gather when it is compiled in, the
        antenna count is a multiple of four and the layout is partially
        transposed; the scalar gather otherwise. Either way the gather
        buffer then holds the cache line's samples, subcarrier-major. */
    method Gather(row: nat, s0: nat)
      requires Valid() && row < |dataBuffer|
      requires s0 % SCsPerCacheline == 0 && s0 + SCsPerCacheline <= cfg.ofdmDataNum
      modifies dataGatherBuffer
      ensures Gathered(row, s0)
    {
      if UseSimdGather && cfg.bsAntNum % 4 == 0 && cfg.usePartialTrans {
        GatherSimd(row, s0);
      } else {
        GatherScalar(row, s0);
      }
    }

    /** Scalar gather (lines 124-135): subcarrier by subcarrier, antenna by
        antenna, advancing the destination one sample at a time. */
    method GatherScalar(row: nat, s0: nat)
      requires Valid() && row < |dataBuffer|
      requires s0 % SCsPerCacheline == 0 && s0 + SCsPerCacheline <= cfg.ofdmDataNum
      modifies dataGatherBuffer
      ensures Gathered(row, s0)
    {
      var N := cfg.bsAntNum;
      var dst := 0;
      for j := 0 to SCsPerCacheline
        invariant dst == j * N
        invariant forall j', a | 0 <= j' < j && 0 <= a < N ::
          dataGatherBuffer[Cell(SCsPerCacheline, N, j', a)] == Sample(row, a, s0 + j')
      {
        dst := ScalarGatherLine(row, s0, j, dst);
        forall j', a | 0 <= j' < j && 0 <= a < N
          ensures Cell(SCsPerCacheline, N, j', a) < j * N
        {
          CellBefore(SCsPerCacheline, N, j', a, j);
        }
      }
    }

    /** The inner loop of the scalar gather: the samples of every antenna at
        subcarrier s0 + j, stored from `dst` on. */
    method ScalarGatherLine(row: nat, s0: nat, j: nat, dst: nat) returns (dst': nat)
      requires Valid() && row < |dataBuffer|
      requires s0 % SCsPerCacheline == 0 && s0 + SCsPerCacheline <= cfg.ofdmDataNum
      requires j < SCsPerCacheline && dst == j * cfg.bsAntNum
      modifies dataGatherBuffer
      ensures dst' == dst + cfg.bsAntNum
      ensures forall a | 0 <= a < cfg.bsAntNum ::
        dataGatherBuffer[Cell(SCsPerCacheline, cfg.bsAntNum, j, a)] == Sample(row, a, s0 + j)
      ensures forall k | 0 <= k < dataGatherBuffer.Length && !(dst <= k < dst') ::
        dataGatherBuffer[k] == old(dataGatherBuffer[k])
    {
      var N := cfg.bsAntNum;
      dst' := dst;
      for ant := 0 to N
        invariant dst' == dst + ant
        invariant forall a | 0 <= a < ant ::
          dataGatherBuffer[Cell(SCsPerCacheline, N, j, a)] == Sample(row, a, s0 + j)
        invariant forall k | 0 <= k < dataGatherBuffer.Length && !(dst <= k < dst') ::
          dataGatherBuffer[k] == old(dataGatherBuffer[k])
      {
        ScalarGatherAgrees(cfg, s0, j, ant);
        assert dst' == Cell(SCsPerCacheline, N, j, ant);
        dataGatherBuffer[dst'] := dataBuffer[row][ScalarGatherIndex(cfg, s0, j, ant)];
        dst' := dst' + 1;
      }
    }

    /** SIMD gather (lines 103-123): per group of four antennas, one 256-bit
        gather of four complex samples per subcarrier of the cache line. */
    method GatherSimd(row: nat, s0: nat)
      requires Valid() && row < |dataBuffer| && cfg.usePartialTrans && cfg.bsAntNum % 4 == 0
      requires s0 % SCsPerCacheline == 0 && s0 + SCsPerCacheline <= cfg.ofdmDataNum
      modifies dataGatherBuffer
      ensures Gathered(row, s0)
    {
      var N := cfg.bsAntNum;
      var src := PartialTransposeBase(cfg, s0) + s0 % TransposeBlockSize;
      var dst := 0;
      var ant := 0;
      var group := 0;
      while ant < N
        invariant ant == 4 * group && ant <= N && dst == ant
        invariant src == PartialTransposeBase(cfg, s0) + s0 % TransposeBlockSize + group * SimdSourceStride
        invariant forall j, a | 0 <= j < SCsPerCacheline && 0 <= a < ant ::
          dataGatherBuffer[Cell(SCsPerCacheline, N, j, a)] == Sample(row, a, s0 + j)
      {
        SimdGatherGroup(row, s0, group, src, dst);
        src := src + SimdSourceStride;
        dst := dst + 4;
        ant := ant + 4;
        group := group + 1;
      }
    }

    /** One iteration of the SIMD gather's antenna loop: antennas
        4*group .. 4*group+3 of every subcarrier of the cache line. */
    method SimdGatherGroup(row: nat, s0: nat, group: nat, src: nat, dst: nat)
      requires Valid() && row < |dataBuffer| && cfg.usePartialTrans && cfg.bsAntNum % 4 == 0
      requires s0 % SCsPerCacheline == 0 && s0 + SCsPerCacheline <= cfg.ofdmDataNum
      requires dst == 4 * group && dst < cfg.bsAntNum
      requires src == PartialTransposeBase(cfg, s0) + s0 % TransposeBlockSize + group * SimdSourceStride
      modifies dataGatherBuffer
      ensures forall j, a | 0 <= j < SCsPerCacheline && 0 <= a < cfg.bsAntNum ::
        dataGatherBuffer[Cell(SCsPerCacheline, cfg.bsAntNum, j, a)] ==
          if dst <= a < dst + 4 then Sample(row, a, s0 + j)
          else old(dataGatherBuffer[Cell(SCsPerCacheline, cfg.bsAntNum, j, a)])
    {
      var N := cfg.bsAntNum;
      for j := 0 to SCsPerCacheline
        invariant forall j', a | 0 <= j' < SCsPerCacheline && 0 <= a < N ::
          dataGatherBuffer[Cell(SCsPerCacheline, N, j', a)] ==
            if j' < j && dst <= a < dst + 4 then Sample(row, a, s0 + j')
            else old(dataGatherBuffer[Cell(SCsPerCacheline, N, j', a)])
      {
        ghost var before := dataGatherBuffer[..];
        SimdGatherLanes(row, s0, group, src, dst, j);
        forall j', a | 0 <= j' < SCsPerCacheline && 0 <= a < N
          ensures dataGatherBuffer[Cell(SCsPerCacheline, N, j', a)] ==
            if j' < j + 1 && dst <= a < dst + 4 then Sample(row, a, s0 + j')
            else old(dataGatherBuffer[Cell(SCsPerCacheline, N, j', a)])
        {
          var k := Cell(SCsPerCacheline, N, j', a);
          if !(j' == j && dst <= a < dst + 4) {
            assert dataGatherBuffer[k] == before[k];
          }
        }
      }
    }

    /** One 256-bit gather and store of the SIMD path (lines 114-121): the
        four lanes hold antennas 4*group .. 4*group+3 of subcarrier `s0 + j`. */
    method SimdGatherLanes(row: nat, s0: nat, group: nat, src: nat, dst: nat, j: nat)
      requires Valid() && row < |dataBuffer| && cfg.usePartialTrans && cfg.bsAntNum % 4 == 0
      requires s0 % SCsPerCacheline == 0 && s0 + SCsPerCacheline <= cfg.ofdmDataNum
      requires dst == 4 * group && dst < cfg.bsAntNum && j < SCsPerCacheline
      requires src == PartialTransposeBase(cfg, s0) + s0 % TransposeBlockSize + group * SimdSourceStride
      modifies dataGatherBuffer
      ensures forall j', a | 0 <= j' < SCsPerCacheline && 0 <= a < cfg.bsAntNum ::
        dataGatherBuffer[Cell(SCsPerCacheline, cfg.bsAntNum, j', a)] ==
          if j' == j && dst <= a < dst + 4 then Sample(row, a, s0 + j)
          else old(dataGatherBuffer[Cell(SCsPerCacheline, cfg.bsAntNum, j', a)])
    {
      var N := cfg.bsAntNum;
      for lane := 0 to 4
        invariant forall j', a | 0 <= j' < SCsPerCacheline && 0 <= a < N ::
          dataGatherBuffer[Cell(SCsPerCacheline, N, j', a)] ==
            if j' == j && dst <= a < dst + lane then Sample(row, a, s0 + j)
            else old(dataGatherBuffer[Cell(SCsPerCacheline, N, j', a)])
      {
        SimdGatherAgrees(cfg, s0, group, lane, j);
        var k := Cell(SCsPerCacheline, N, j, dst + lane);
        assert dst + j * N + lane == k;
        dataGatherBuffer[k] := dataBuffer[row][src + j + lane * TransposeBlockSize];
        forall j', a | 0 <= j' < SCsPerCacheline && 0 <= a < N && (j' != j || a != dst + lane)
          ensures Cell(SCsPerCacheline, N, j', a) != k
        {
          CellDivMod(SCsPerCacheline, N, j', a);
          CellDivMod(SCsPerCacheline, N, j, dst + lane);
        }
      }
    }

    /** The matrix-vector product for one UE at one subcarrier, summed
        antenna by antenna over the gathered receive vector. */
    method ZfDot(row: nat, slot: nat, j: nat, sc: nat, u: nat) returns (acc: Complex)
      requires Valid() && row < |dataBuffer| && slot < FrameWnd && u < cfg.ueNum
      requires j < SCsPerCacheline && j <= sc && sc - j + SCsPerCacheline <= cfg.ofdmDataNum
      requires cfg.zfScId(sc) < ZfColumns()
      requires Gathered(row, sc - j)
      ensures acc == Equalized(row, slot, sc, u)
    {
      var U, N := cfg.ueNum, cfg.bsAntNum;
      var z := ulZfMatrices[slot][cfg.zfScId(sc)];
      ghost var x := ReceiveVector(row, sc);
      acc := Zero;
      for a := 0 to N
        invariant acc == MatVecEntry(z, x[..a], U, u)
      {
        assert x[..a + 1][..a] == x[..a];
        assert dataGatherBuffer[Cell(SCsPerCacheline, N, j, a)] == x[a];
        acc := Add(acc, Mul(z[Cell(N, U, a, u)], dataGatherBuffer[Cell(SCsPerCacheline, N, j, a)]));
        assert Cell(N, U, a, u) == Cell(a + 1, U, a, u);
      }
      assert x[..N] == x;
    }

    /** Equalization of one subcarrier (lines 141-165): the UeNum entries of
        the zero-forcing matrix times the gathered receive vector. */
    method Equalize(row: nat, slot: nat, j: nat, sc: nat)
      requires Valid() && row < |dataBuffer| && row < equalBuffer.Length0 && slot < FrameWnd
      requires j < SCsPerCacheline && j <= sc && sc - j + SCsPerCacheline <= cfg.ofdmDataNum
      requires cfg.zfScId(sc) < ZfColumns()
      requires Gathered(row, sc - j)
      modifies equalBuffer
      ensures forall u | 0 <= u < cfg.ueNum ::
        equalBuffer[row, Cell(cfg.ofdmDataNum, cfg.ueNum, sc, u)] == Equalized(row, slot, sc, u)
      ensures forall r, c | 0 <= r < equalBuffer.Length0 && 0 <= c < equalBuffer.Length1 &&
        !(r == row && sc * cfg.ueNum <= c < sc * cfg.ueNum + cfg.ueNum) ::
        equalBuffer[r, c] == old(equalBuffer[r, c])
    {
      var U := cfg.ueNum;
      for u := 0 to U
        invariant forall u' | 0 <= u' < u ::
          equalBuffer[row, Cell(cfg.ofdmDataNum, U, sc, u')] == Equalized(row, slot, sc, u')
        invariant forall r, c | 0 <= r < equalBuffer.Length0 && 0 <= c < equalBuffer.Length1 &&
          !(r == row && sc * U <= c < sc * U + U) ::
          equalBuffer[r, c] == old(equalBuffer[r, c])
      {
        var acc := ZfDot(row, slot, j, sc, u);
        equalBuffer[row, Cell(cfg.ofdmDataNum, U, sc, u)] := acc;
      }
    }

    /** Reset of the previous frame slot's accumulators (lines 167-174). */
    method ResetPhase(prevSlot: nat)
      requires Valid() && prevSlot < FrameWnd
      modifies ueSpecPilotBuffer
      ensures forall r, c | 0 <= r < FrameWnd && 0 <= c < ueSpecPilotBuffer.Length1 ::
        ueSpecPilotBuffer[r, c] ==
          if r == prevSlot && c < cfg.numUlSyms * cfg.ueNum then Zero else old(ueSpecPilotBuffer[r, c])
    {
      for c := 0 to cfg.numUlSyms * cfg.ueNum
        invariant forall r, c' | 0 <= r < FrameWnd && 0 <= c' < ueSpecPilotBuffer.Length1 ::
          ueSpecPilotBuffer[r, c'] ==
            if r == prevSlot && c' < c then Zero else old(ueSpecPilotBuffer[r, c'])
      {
        ueSpecPilotBuffer[prevSlot, c] := Zero;
      }
    }

    /** Phase accumulation at a pilot-spaced subcarrier (lines 175-184):
        the entries of subcarrier `sc` in equalization row `row` hold the
        zero-forcing estimates, and each UE's accumulator in the slot gains
        its phase term. */
    method AccumulatePhase(row: nat, slot: nat, symbolIdxUl: nat, sc: nat)
      requires Valid() && row < equalBuffer.Length0 && row < |dataBuffer| && slot < FrameWnd
      requires symbolIdxUl < cfg.numUlSyms && sc < cfg.ofdmDataNum && cfg.zfScId(sc) < ZfColumns()
      requires forall u | 0 <= u < cfg.ueNum ::
        equalBuffer[row, Cell(cfg.ofdmDataNum, cfg.ueNum, sc, u)] == Equalized(row, slot, sc, u)
      modifies ueSpecPilotBuffer
      ensures forall r, c | 0 <= r < FrameWnd && 0 <= c < ueSpecPilotBuffer.Length1 ::
        ueSpecPilotBuffer[r, c] ==
          if r == slot && symbolIdxUl * cfg.ueNum <= c < symbolIdxUl * cfg.ueNum + cfg.ueNum then
            Add(old(ueSpecPilotBuffer[r, c]), PhaseTerm(row, slot, sc, c - symbolIdxUl * cfg.ueNum))
          else old(ueSpecPilotBuffer[r, c])
    {
      var U := cfg.ueNum;
      for u := 0 to U
        invariant forall r, c | 0 <= r < FrameWnd && 0 <= c < ueSpecPilotBuffer.Length1 ::
          ueSpecPilotBuffer[r, c] ==
            if r == slot && symbolIdxUl * U <= c < symbolIdxUl * U + u then
              Add(old(ueSpecPilotBuffer[r, c]), PhaseTerm(row, slot, sc, c - symbolIdxUl * U))
            else old(ueSpecPilotBuffer[r, c])
      {
        var c := Cell(cfg.numUlSyms, U, symbolIdxUl, u);
        var shift := sign(Mul(equalBuffer[row, Cell(cfg.ofdmDataNum, U, sc, u)], Conj(uePilotData[u][sc])));
        assert shift == PhaseTerm(row, slot, sc, u);
        ueSpecPilotBuffer[slot, c] := Add(ueSpecPilotBuffer[slot, c], shift);
      }
    }

    /** The accumulator cell (r, c) after the demodulation task's step 2 at subcarrier
        `sc`, given its value `v` before that step. */
    ghost function PhaseStep(tag: GenTag, sc: nat, r: nat, c: nat, v: Complex): (after: Complex)
      requires Valid() && TaskFits(tag)
      requires tag.scId <= sc < tag.scId + BlockLen(cfg, tag.scId)
    {
      var col := SymbolIdxUl(tag) * cfg.ueNum;
      if r == FrameSlot(tag.frameId) && col <= c < col + cfg.ueNum then
        if sc % cfg.ofdmPilotSpacing == 0 then Add(v, PhaseTerm(TaskRow(tag), FrameSlot(tag.frameId), sc, c - col))
        else v
      else if r == PrevFrameSlot(tag.frameId) && c < cfg.numUlSyms * cfg.ueNum
              && SymbolIdxUl(tag) == 0 && sc == 0 then
        Zero
      else v
    }

    /** One subcarrier's step is the one-subcarrier range of PhaseAfter. */
    lemma PhaseAfterOne(tag: GenTag, sc: nat, r: nat, c: nat, v: Complex)
      requires Valid() && TaskFits(tag)
      requires tag.scId <= sc < tag.scId + BlockLen(cfg, tag.scId)
      ensures PhaseAfter(tag, sc, sc + 1, r, c, v) == PhaseStep(tag, sc, r, c, v)
    {
      var col := SymbolIdxUl(tag) * cfg.ueNum;
      if r == FrameSlot(tag.frameId) && col <= c < col + cfg.ueNum {
        assert PhaseSum(TaskRow(tag), FrameSlot(tag.frameId), sc, sc, c - col) == Zero;
      }
    }

    /** The phase accumulators as a table: one row per frame slot. */
    ghost function PilotTable(): (t: seq<seq<Complex>>)
      reads ueSpecPilotBuffer
      ensures |t| == ueSpecPilotBuffer.Length0
      ensures forall r | 0 <= r < |t| :: |t[r]| == ueSpecPilotBuffer.Length1
      ensures forall r, c | 0 <= r < |t| && 0 <= c < ueSpecPilotBuffer.Length1 :: t[r][c] == ueSpecPilotBuffer[r, c]
    {
      seq(ueSpecPilotBuffer.Length0, r requires 0 <= r < ueSpecPilotBuffer.Length0 reads ueSpecPilotBuffer =>
        seq(ueSpecPilotBuffer.Length1, c requires 0 <= c < ueSpecPilotBuffer.Length1 reads ueSpecPilotBuffer =>
          ueSpecPilotBuffer[r, c]))
    }

    /** The accumulator table `t` after the demodulation task has processed the
        subcarriers [lo, hi): PhaseAfter applied to every cell. */
    ghost function PilotAfter(tag: GenTag, lo: nat, hi: nat, t: seq<seq<Complex>>): (t': seq<seq<Complex>>)
      requires Valid() && TaskFits(tag)
      requires tag.scId <= lo <= hi <= tag.scId + BlockLen(cfg, tag.scId)
      ensures |t'| == |t| && forall r | 0 <= r < |t| :: |t'[r]| == |t[r]|
      ensures forall r, c {:trigger t'[r][c]} | 0 <= r < |t| && 0 <= c < |t[r]| :: t'[r][c] == PhaseAfter(tag, lo, hi, r, c, t[r][c])
    {
      seq(|t|, r requires 0 <= r < |t| =>
        seq(|t[r]|, c requires 0 <= c < |t[r]| => PhaseAfter(tag, lo, hi, r, c, t[r][c])))
    }

    /** Processing no subcarrier leaves the table as it was. */
    lemma PilotAfterNothing(tag: GenTag, lo: nat, t: seq<seq<Complex>>)
      requires Valid() && TaskFits(tag)
      requires tag.scId <= lo <= tag.scId + BlockLen(cfg, tag.scId)
      ensures PilotAfter(tag, lo, lo, t) == t
    {
      forall r, c | 0 <= r < |t| && 0 <= c < |t[r]| ensures PilotAfter(tag, lo, lo, t)[r][c] == t[r][c] {
        var col := SymbolIdxUl(tag) * cfg.ueNum;
        if r == FrameSlot(tag.frameId) && col <= c < col + cfg.ueNum {
          assert PhaseSum(TaskRow(tag), FrameSlot(tag.frameId), lo, lo, c - col) == Zero;
        }
      }
      TablesEqual(PilotAfter(tag, lo, lo, t), t);
    }

    /** Processing [lo, mid) and then [mid, hi) leaves the accumulator table
        as processing [lo, hi) at once does. */
    lemma PilotAfterCompose(tag: GenTag, lo: nat, mid: nat, hi: nat, t: seq<seq<Complex>>)
      requires Valid() && TaskFits(tag)
      requires tag.scId <= lo <= mid <= hi <= tag.scId + BlockLen(cfg, tag.scId)
      ensures PilotAfter(tag, mid, hi, PilotAfter(tag, lo, mid, t)) == PilotAfter(tag, lo, hi, t)
    {
      var a, b := PilotAfter(tag, mid, hi, PilotAfter(tag, lo, mid, t)), PilotAfter(tag, lo, hi, t);
      forall r, c | 0 <= r < |t| && 0 <= c < |t[r]| ensures a[r][c] == b[r][c] {
        PhaseAfterCompose(tag, lo, mid, hi, r, c, t[r][c]);
      }
      TablesEqual(a, b);
    }

    /** A task of uplink symbol 0 whose block starts at subcarrier 0 clears
        every accumulator of the previous frame's slot, while the
        accumulators of its own slot keep their old contents and only gain
        the phase sum. */
    lemma FirstSymbolClearsPreviousSlot(tag: GenTag, hi: nat, t: seq<seq<Complex>>, c: nat, u: nat)
      requires Valid() && TaskFits(tag)
      requires SymbolIdxUl(tag) == 0 && tag.scId == 0 && 0 < hi <= BlockLen(cfg, 0)
      requires |t| == FrameWnd && forall r | 0 <= r < FrameWnd :: |t[r]| >= cfg.numUlSyms * cfg.ueNum
      requires c < cfg.numUlSyms * cfg.ueNum && u < cfg.ueNum
      ensures u < |t[FrameSlot(tag.frameId)]|
      ensures PilotAfter(tag, 0, hi, t)[PrevFrameSlot(tag.frameId)][c] == Zero
      ensures PilotAfter(tag, 0, hi, t)[FrameSlot(tag.frameId)][u]
           == Add(t[FrameSlot(tag.frameId)][u], PhaseSum(TaskRow(tag), FrameSlot(tag.frameId), 0, hi, u))
    {
      MulMono(1, cfg.numUlSyms, cfg.ueNum);
    }

    /** The equalization buffer as a table: one row per uplink data symbol. */
    ghost function EqualTable(): (t: seq<seq<Complex>>)
      reads equalBuffer
      ensures |t| == equalBuffer.Length0
      ensures forall r | 0 <= r < |t| :: |t[r]| == equalBuffer.Length1
      ensures forall r, c | 0 <= r < |t| && 0 <= c < equalBuffer.Length1 :: t[r][c] == equalBuffer[r, c]
    {
      seq(equalBuffer.Length0, r requires 0 <= r < equalBuffer.Length0 reads equalBuffer =>
        seq(equalBuffer.Length1, c requires 0 <= c < equalBuffer.Length1 reads equalBuffer =>
          equalBuffer[r, c]))
    }

    /** The estimate that column `c` of an equalized row holds: UE c % UeNum
        of subcarrier c / UeNum. */
    ghost function EqualizedColumn(row: nat, slot: nat, lo: nat, hi: nat, c: nat): (e: Complex)
      requires Valid() && row < |dataBuffer| && slot < FrameWnd && lo <= hi <= cfg.ofdmDataNum
      requires forall sc | lo <= sc < hi :: cfg.zfScId(sc) < ZfColumns()
      requires lo * cfg.ueNum <= c < hi * cfg.ueNum
    {
      ColumnOwner(lo, hi, cfg.ueNum, c);
      Equalized(row, slot, c / cfg.ueNum, c % cfg.ueNum)
    }

    /** The table `t` after the subcarriers [lo, hi) of data row `row` have
        been equalized with the matrices of frame slot `slot`. */
    ghost function EqualAfter(row: nat, slot: nat, lo: nat, hi: nat, t: seq<seq<Complex>>): (t': seq<seq<Complex>>)
      requires Valid() && row < |dataBuffer| && slot < FrameWnd && lo <= hi <= cfg.ofdmDataNum
      requires forall sc | lo <= sc < hi :: cfg.zfScId(sc) < ZfColumns()
      ensures |t'| == |t| && forall r | 0 <= r < |t| :: |t'[r]| == |t[r]|
      ensures forall r, c {:trigger t'[r][c]} | 0 <= r < |t| && 0 <= c < |t[r]| ::
        t'[r][c] == if r == row && lo * cfg.ueNum <= c < hi * cfg.ueNum then EqualizedColumn(row, slot, lo, hi, c) else t[r][c]
    {
      seq(|t|, r requires 0 <= r < |t| =>
        seq(|t[r]|, c requires 0 <= c < |t[r]| =>
          if r == row && lo * cfg.ueNum <= c < hi * cfg.ueNum then EqualizedColumn(row, slot, lo, hi, c) else t[r][c]))
    }

    /** In the equalized table, entry u of subcarrier sc in [lo, hi) is the
        zero-forcing estimate of UE u at sc. */
    lemma EqualAfterWrites(row: nat, slot: nat, lo: nat, hi: nat, t: seq<seq<Complex>>, sc: nat, u: nat)
      requires Valid() && row < |dataBuffer| && slot < FrameWnd && lo <= hi <= cfg.ofdmDataNum
      requires forall sc | lo <= sc < hi :: cfg.zfScId(sc) < ZfColumns()
      requires lo <= sc < hi && u < cfg.ueNum
      requires row < |t| && |t[row]| >= cfg.ofdmDataNum * cfg.ueNum
      ensures EqualAfter(row, slot, lo, hi, t)[row][Cell(cfg.ofdmDataNum, cfg.ueNum, sc, u)] == Equalized(row, slot, sc, u)
    {
      var U := cfg.ueNum;
      var c := Cell(cfg.ofdmDataNum, U, sc, u);
      CellDivMod(cfg.ofdmDataNum, U, sc, u);
      MulMono(lo, sc, U);
      MulMono(sc + 1, hi, U);
      assert (sc + 1) * U == sc * U + U;
      assert lo * U <= c < hi * U;
      assert EqualizedColumn(row, slot, lo, hi, c) == Equalized(row, slot, sc, u);
    }

    /** Equalizing [lo, mid) and then [mid, hi) is equalizing [lo, hi). */
    lemma EqualAfterCompose(row: nat, slot: nat, lo: nat, mid: nat, hi: nat, t: seq<seq<Complex>>)
      requires Valid() && row < |dataBuffer| && slot < FrameWnd && lo <= mid <= hi <= cfg.ofdmDataNum
      requires forall sc | lo <= sc < hi :: cfg.zfScId(sc) < ZfColumns()
      ensures EqualAfter(row, slot, mid, hi, EqualAfter(row, slot, lo, mid, t)) == EqualAfter(row, slot, lo, hi, t)
    {
      var U := cfg.ueNum;
      var a, b := EqualAfter(row, slot, mid, hi, EqualAfter(row, slot, lo, mid, t)), EqualAfter(row, slot, lo, hi, t);
      MulMono(lo, mid, U);
      MulMono(mid, hi, U);
      forall r, c | 0 <= r < |t| && 0 <= c < |t[r]| ensures a[r][c] == b[r][c] {
        if r == row && lo * U <= c < hi * U {
          ColumnOwner(lo, hi, U, c);
        }
      }
      TablesEqual(a, b);
    }

    /** Equalizing nothing leaves the table as it was. */
    lemma EqualAfterNothing(row: nat, slot: nat, lo: nat, t: seq<seq<Complex>>)
      requires Valid() && row < |dataBuffer| && slot < FrameWnd && lo <= cfg.ofdmDataNum
      ensures EqualAfter(row, slot, lo, lo, t) == t
    {
      TablesEqual(EqualAfter(row, slot, lo, lo, t), t);
    }

    /** The demodulation task has processed the subcarriers [lo, hi) of its block: the
        equalization table went from `e0` to `e1` and the accumulator table
        from `p0` to `p1`. */
    ghost predicate Processed(tag: GenTag, lo: nat, hi: nat, e0: seq<seq<Complex>>, p0: seq<seq<Complex>>,
                              e1: seq<seq<Complex>>, p1: seq<seq<Complex>>)
      requires Valid() && TaskFits(tag)
      requires tag.scId <= lo <= hi <= tag.scId + BlockLen(cfg, tag.scId)
    {
      && e1 == EqualAfter(TaskRow(tag), FrameSlot(tag.frameId), lo, hi, e0)
      && p1 == PilotAfter(tag, lo, hi, p0)
    }

    /** Processing nothing changes nothing. */
    lemma ProcessedNothing(tag: GenTag, lo: nat, e: seq<seq<Complex>>, p: seq<seq<Complex>>)
      requires Valid() && TaskFits(tag)
      requires tag.scId <= lo <= tag.scId + BlockLen(cfg, tag.scId)
      ensures Processed(tag, lo, lo, e, p, e, p)
    {
      EqualAfterNothing(TaskRow(tag), FrameSlot(tag.frameId), lo, e);
      PilotAfterNothing(tag, lo, p);
    }

    /** Processing [lo, mid) and then [mid, hi) is processing [lo, hi). */
    lemma ProcessedChain(tag: GenTag, lo: nat, mid: nat, hi: nat, e0: seq<seq<Complex>>, p0: seq<seq<Complex>>,
                         e1: seq<seq<Complex>>, p1: seq<seq<Complex>>, e2: seq<seq<Complex>>, p2: seq<seq<Complex>>)
      requires Valid() && TaskFits(tag)
      requires tag.scId <= lo <= mid <= hi <= tag.scId + BlockLen(cfg, tag.scId)
      requires Processed(tag, lo, mid, e0, p0, e1, p1) && Processed(tag, mid, hi, e1, p1, e2, p2)
      ensures Processed(tag, lo, hi, e0, p0, e2, p2)
    {
      EqualAfterCompose(TaskRow(tag), FrameSlot(tag.frameId), lo, mid, hi, e0);
      PilotAfterCompose(tag, lo, mid, hi, p0);
    }

    /** Step 2 for one subcarrier `sc` of the cache line starting at `s0`
        (lines 139-188): equalize it, then track its phase. */
    method DemulSubcarrier(tag: GenTag, s0: nat, sc: nat)
      requires Valid() && TaskFits(tag)
      requires tag.scId <= s0 <= sc < s0 + SCsPerCacheline <= tag.scId + BlockLen(cfg, tag.scId)
      requires Gathered(TaskRow(tag), s0)
      modifies equalBuffer, ueSpecPilotBuffer
      ensures Processed(tag, sc, sc + 1, old(EqualTable()), old(PilotTable()), EqualTable(), PilotTable())
    {
      var row, slot, U := TaskRow(tag), FrameSlot(tag.frameId), cfg.ueNum;
      Equalize(row, slot, sc - s0, sc);
      ghost var after := EqualAfter(row, slot, sc, sc + 1, old(EqualTable()));
      forall r, c | 0 <= r < equalBuffer.Length0 && 0 <= c < equalBuffer.Length1
        ensures EqualTable()[r][c] == after[r][c]
      {
        if r == row && sc * U <= c < (sc + 1) * U {
          ColumnOwner(sc, sc + 1, U, c);
          assert c == Cell(cfg.ofdmDataNum, U, sc, c % U);
        }
      }
      TablesEqual(EqualTable(), after);
      TrackPhase(tag, sc);
    }

    /** The table-level effect of one subcarrier's phase tracking: `t1` is
        `t0` with the previous slot cleared when the reset applies, and `t2`
        is `t1` with the demodulation task's accumulators advanced when `sc` is
        pilot-spaced. Together they are PilotAfter over `[sc, sc+1)`. */
    lemma TrackPhaseTables(tag: GenTag, sc: nat, t0: seq<seq<Complex>>, t1: seq<seq<Complex>>, t2: seq<seq<Complex>>)
      requires Valid() && TaskFits(tag)
      requires tag.scId <= sc < tag.scId + BlockLen(cfg, tag.scId)
      requires |t0| == |t1| == |t2| == FrameWnd
      requires forall r | 0 <= r < FrameWnd :: |t0[r]| == |t1[r]| == |t2[r]| == ueSpecPilotBuffer.Length1
      requires forall r, c | 0 <= r < FrameWnd && 0 <= c < ueSpecPilotBuffer.Length1 ::
        t1[r][c] == if SymbolIdxUl(tag) == 0 && sc == 0 && r == PrevFrameSlot(tag.frameId)
                       && c < cfg.numUlSyms * cfg.ueNum then Zero else t0[r][c]
      requires forall r, c | 0 <= r < FrameWnd && 0 <= c < ueSpecPilotBuffer.Length1 ::
        t2[r][c] == if sc % cfg.ofdmPilotSpacing == 0 && r == FrameSlot(tag.frameId)
                       && SymbolIdxUl(tag) * cfg.ueNum <= c < SymbolIdxUl(tag) * cfg.ueNum + cfg.ueNum
                    then Add(t1[r][c], PhaseTerm(TaskRow(tag), FrameSlot(tag.frameId), sc, c - SymbolIdxUl(tag) * cfg.ueNum))
                    else t1[r][c]
      ensures t2 == PilotAfter(tag, sc, sc + 1, t0)
    {
      var after := PilotAfter(tag, sc, sc + 1, t0);
      forall r, c | 0 <= r < FrameWnd && 0 <= c < ueSpecPilotBuffer.Length1
        ensures t2[r][c] == after[r][c]
      {
        PhaseAfterOne(tag, sc, r, c, t0[r][c]);
      }
      TablesEqual(t2, after);
    }

    /** The phase tracking of one equalized subcarrier (lines 166-184):
        clear the previous frame slot at subcarrier 0 of uplink symbol 0,
        and add the phase contributions at pilot-spaced subcarriers. */
    method TrackPhase(tag: GenTag, sc: nat)
      requires Valid() && TaskFits(tag)
      requires tag.scId <= sc < tag.scId + BlockLen(cfg, tag.scId)
      requires forall u | 0 <= u < cfg.ueNum ::
        equalBuffer[TaskRow(tag), Cell(cfg.ofdmDataNum, cfg.ueNum, sc, u)] ==
          Equalized(TaskRow(tag), FrameSlot(tag.frameId), sc, u)
      modifies ueSpecPilotBuffer
      ensures PilotTable() == PilotAfter(tag, sc, sc + 1, old(PilotTable()))
    {
      ghost var t0 := PilotTable();
      if SymbolIdxUl(tag) == 0 && sc == 0 {
        ResetPhase(PrevFrameSlot(tag.frameId));
      }
      ghost var t1 := PilotTable();
      if sc % cfg.ofdmPilotSpacing == 0 {
        AccumulatePhase(TaskRow(tag), FrameSlot(tag.frameId), SymbolIdxUl(tag), sc);
      }
      TrackPhaseTables(tag, sc, t0, t1, PilotTable());
    }

    /** Step 2 for the cache line of subcarriers starting at `s0` (lines
        139-189), subcarrier by subcarrier. */
    method DemulCacheLine(tag: GenTag, s0: nat)
      requires Valid() && TaskFits(tag)
      requires tag.scId <= s0 && s0 + SCsPerCacheline <= tag.scId + BlockLen(cfg, tag.scId)
      requires Gathered(TaskRow(tag), s0)
      modifies equalBuffer, ueSpecPilotBuffer
      ensures Processed(tag, s0, s0 + SCsPerCacheline, old(EqualTable()), old(PilotTable()), EqualTable(), PilotTable())
    {
      ProcessedNothing(tag, s0, EqualTable(), PilotTable());
      var sc := s0;
      while sc < s0 + SCsPerCacheline
        invariant s0 <= sc <= s0 + SCsPerCacheline
        invariant Processed(tag, s0, sc, old(EqualTable()), old(PilotTable()), EqualTable(), PilotTable())
      {
        ghost var e, p := EqualTable(), PilotTable();
        DemulSubcarrier(tag, s0, sc);
        ProcessedChain(tag, s0, sc, sc + 1, old(EqualTable()), old(PilotTable()), e, p, EqualTable(), PilotTable());
        sc := sc + 1;
      }
    }

    /** One iteration of the cache-line loop (lines 89-189): gather the
        samples of the line, then equalize and track phase over its
        subcarriers. */
    method ProcessCacheLine(tag: GenTag, s0: nat)
      requires Valid() && TaskFits(tag)
      requires tag.scId <= s0 && s0 + SCsPerCacheline <= tag.scId + BlockLen(cfg, tag.scId)
      requires s0 % SCsPerCacheline == 0
      modifies equalBuffer, ueSpecPilotBuffer, dataGatherBuffer
      ensures Processed(tag, s0, s0 + SCsPerCacheline, old(EqualTable()), old(PilotTable()), EqualTable(), PilotTable())
    {
      Gather(TaskRow(tag), s0);
      DemulCacheLine(tag, s0);
    }

    /** The demodulation task (lines 64-193): for each cache line of its
        block, gather the received samples (SIMD or scalar, as the build and
        the antenna count select), then equalize and track phase subcarrier
        by subcarrier; report completion with a kDemul event for the same
        tag. */
    method Launch(tag: GenTag) returns (ev: EventData)
      requires Valid() && TaskFits(tag)
      modifies equalBuffer, ueSpecPilotBuffer, dataGatherBuffer
      ensures ev == EventData(EventDemul, tag)
      ensures EqualTable() ==
        EqualAfter(TaskRow(tag), FrameSlot(tag.frameId), tag.scId, tag.scId + BlockLen(cfg, tag.scId), old(EqualTable()))
      ensures PilotTable() == PilotAfter(tag, tag.scId, tag.scId + BlockLen(cfg, tag.scId), old(PilotTable()))
    {
      var base, len := tag.scId, BlockLen(cfg, tag.scId);
      ProcessedNothing(tag, base, EqualTable(), PilotTable());
      var s0 := base;
      while s0 < base + len
        invariant base <= s0 <= base + len && s0 % SCsPerCacheline == 0
        invariant Processed(tag, base, s0, old(EqualTable()), old(PilotTable()), EqualTable(), PilotTable())
      {
        CacheLineFits(base, len, s0);
        ghost var e, p := EqualTable(), PilotTable();
        ProcessCacheLine(tag, s0);
        ProcessedChain(tag, base, s0, s0 + SCsPerCacheline, old(EqualTable()), old(PilotTable()), e, p, EqualTable(), PilotTable());
        s0 := s0 + SCsPerCacheline;
      }
      assert s0 == base + len;
      ev := EventData(EventDemul, tag);
    }
  }
}
