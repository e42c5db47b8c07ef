/** Compile-time constants of the pipeline. The headers that define them are
    not part of this model, so the values below are assumed. The Stats
    constants (NumStatsFrames, MaxThreads, NumDoerTypes) come from
    Symbols.hpp, included at src/millipede/stats.hpp:9; the others from
    headers reached through the includes of dodemul.cc and agora_buffer.h.
    Where a proof depends on a value, the note next to the constant says
    which proof and how. */
module Symbols {
  /** Number of frames whose buffers are resident at once: a frame's slot is
      its id modulo FrameWnd. Demul.PrevFrameSlot depends on the value 40:
      frame 0 resets slot (2^64 - 1) % 40 == 15. */
  const FrameWnd: nat := 40
  /** Complex single-precision samples in one 64-byte cache line. It must
      divide TransposeBlockSize (Demul.SameTransposeBlock), and
      Demul.SimdGatherAgrees depends on the value 8. The SIMD gather advances
      its source by SCsPerCacheline * TransposeBlockSize floats per group,
      and that is four antennas' runs only when SCsPerCacheline == 8. */
  const SCsPerCacheline: nat := 8
  /** Subcarriers per antenna in one block of the partially transposed
      layout. SCsPerCacheline must divide it (Demul.SameTransposeBlock). */
  const TransposeBlockSize: nat := 64
  /** Upper bound on the number of base-station antennas: the width of the
      gather scratch, so Demul.DoDemul requires BsAntNum <= MaxAntennas. */
  const MaxAntennas: nat := 64
  /** Upper bound on the number of UEs (users) served at once. */
  const MaxUEs: nat := 64
  /** Upper bound on the number of data subcarriers. */
  const MaxDataSCs: nat := 3300
  /** Upper bound on the number of symbols in a frame. */
  const MaxSymbols: nat := 70
  /** Number of schedule-queue shards. */
  const ScheduleQueues: nat := 2
  /** Number of event types (the ordinal of the last EventType plus one). */
  const NumEventTypes: nat := 18
  /** Ordinal of EventType::kDemul. */
  const EventDemul: nat := 3
  /** Ordinal of EventType::kPacketTX. */
  const EventPacketTX: nat := 6
  /** Number of frames the statistics tables remember. */
  const NumStatsFrames: nat := 10000
  /** Upper bound on the number of worker threads. */
  const MaxThreads: nat := 128
  /** Number of Doer kinds (FFT, CSI, ZF, Demul, Decode, Encode, IFFT, Precode, RC). */
  const NumDoerTypes: nat := 9
  /** 2^64: unsigned `size_t` arithmetic wraps modulo this. */
  const SizeModulus: nat := 0x1_0000_0000_0000_0000
}

/** Task descriptors and completion events carried by the queues. */
module Message {
  /** A task tag, kept decoded: frame, symbol and first subcarrier (or antenna). */
  datatype GenTag = GenTag(frameId: nat, symbolId: nat, scId: nat)

  /** An event: the ordinal of its EventType and the tag it refers to. */
  datatype EventData = EventData(eventType: nat, tag: GenTag)

  datatype Option<T> = None | Some(value: T)
}

/** Complex samples with integer parts: an exact stand-in for `complex_float`. */
module ComplexArith {
  datatype Complex = Complex(re: int, im: int)

  const Zero := Complex(0, 0)
  const One := Complex(1, 0)

  function Add(x: Complex, y: Complex): (sum: Complex) {
    Complex(x.re + y.re, x.im + y.im)
  }

  function Mul(x: Complex, y: Complex): (prod: Complex) {
    Complex(x.re * y.re - x.im * y.im, x.re * y.im + x.im * y.re)
  }

  function Conj(x: Complex): (c: Complex) {
    Complex(x.re, -x.im)
  }
}
