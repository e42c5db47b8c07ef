# Agora frame pipeline: demodulation kernel, task queues and statistics

This project models three sequential pieces of the Agora massive-MIMO
baseband and proves properties of them in Dafny. In all three, fixed-size
tables are indexed by frame slot and updated in place.

- **`DoDemul::Launch`** (`demul.dfy`, module `Demul`) is the
  equalization/demodulation task for one (frame, uplink symbol, subcarrier
  block) tag. It walks the block one cache line of 8 subcarriers at a time.
  - It gathers the samples of every antenna into a scratch buffer, out of
    either data layout: the partially transposed one or the antenna-major
    one. There are two gather paths. The SIMD gather is taken only when
    kUseSIMDGather is set, the antenna count is a multiple of four and the
    layout is partially transposed. The scalar fallback handles every
    other case, in both layouts. Both paths are modelled, and both are
    proved to read exactly the samples the layout assigns.
  - It multiplies each subcarrier's receive vector by the subcarrier's
    column-major UeNum x BsAntNum zero-forcing matrix and writes the result
    into the demodulation task's row of the equalization buffer.
  - It maintains the per-frame-slot pilot phase accumulators.
  - The whole task is specified by two table functions. `EqualAfter` gives
    the equalization table after a range of subcarriers. `PilotAfter` gives
    the accumulator table after the same range. `Launch` is proved to turn
    the old tables into exactly these values over its block. The proof goes
    cache line by cache line and subcarrier by subcarrier, and rests on
    lemmas that compose adjacent ranges.
- **`MessageInfo`** (`buffers.dfy`, module `Buffers`) is the task-queue
  fabric.
  - It holds a kScheduleQueues x kNumEventTypes grid of FIFO task queues,
    one completion queue per schedule queue, and the packet-TX queue.
  - The accessors model the run-time assertion and `std::array::at` as
    error results.
  - Any run of pushes and pops is proved FIFO per queue. Each queue is
    proved independent of the operations on every other queue. For the
    `std::queue` task and completion queues this is the library's order;
    for the packet-TX queue it holds only with a single producer (see
    "Left out").
  - `AgoraBuffer` contributes the frame-window dimension of its grid and
    cube tables.
- **`Stats`** (`stats.dfy`, module `Statistics`) keeps the master timestamp
  table and the per-worker duration records.
  - The timestamp table is addressed by `frame_id % kNumStatsFrames`.
  - A read returns the newest write to the same type and slot.
  - The current and stale duration records never alias.

`symbols.dfy` holds the compile-time constants, the decoded task tag and
event, and integer complex numbers. The constants come from headers
that are not part of this model, so their values are assumed. The
`Stats` constants (kNumStatsFrames, kMaxThreads, the Doer-type ordinals)
come from `Symbols.hpp`, included at src/millipede/stats.hpp:9. The
others come from headers reached through the includes of `dodemul.cc` and
`agora_buffer.h`.

## How the model reads the source

- **Previous-frame reset.** At uplink symbol 0, subcarrier 0, the kernel
  zeroes the accumulators of slot `(frame_id - 1) % kFrameWnd`, computed
  in `size_t` (src/agora/dodemul.cc:167-174).
  - The model follows the code: `PrevFrameSlot` wraps the subtraction
    modulo 2^64.
  - So frame 0 clears slot 15, which is (2^64 - 1) mod 40, and every other
    frame clears the slot of the frame before it.
  - `FirstSymbolClearsPreviousSlot` states this behaviour: the previous
    frame's slot is cleared, and the frame's own accumulators only gain.
- **Sample values.** `complex_float` samples are integer complex pairs,
  which form an exact ring. The numeric library's elementwise `sign` is a
  function-valued field of `DoDemul`.
- **Configuration accessors.** `GetULSymbolIdx`, `GetTotalDataSymbolIdxUl`
  and `GetZfScId` are function-valued fields of `Config`. The ranges the
  kernel needs of them are part of `TaskFits`.
- **Read-only inputs.** The data buffer and the zero-forcing matrices are
  only read by the demodulation task, so they are immutable sequences. The
  equalization buffer, the accumulator buffer and the gather scratch are
  arrays that the demodulation task writes in place.

## Model

| member | source | states |
|---|---|---|
| `Demul.SampleIndex` | src/agora/dodemul.cc:129-133 | The address of the sample of antenna a at subcarrier s lies inside the data row, in the partially transposed layout and in the antenna-major one. |
| `Demul.PartialIndexSplits` | src/agora/dodemul.cc:98-100 | In the partially transposed layout, an address splits back into its transpose block `s / T`, its antenna and its in-block offset `s % T`. |
| `Demul.SampleIndexInjective` | src/agora/dodemul.cc:129-133 | Two samples share an address exactly when they are the same (antenna, subcarrier) pair, in either layout. |
| `Demul.SameTransposeBlock` | src/agora/dodemul.cc:95-97 | The 8 subcarriers of a cache-line-aligned run lie in one transpose block, at consecutive offsets. |
| `Demul.ScalarGatherIndex` | src/agora/dodemul.cc:129-133 | The scalar gather's read index for subcarrier `s0 + j` and antenna a. It is a definition with no contract of its own; `ScalarGatherAgrees` proves it equals the layout address. |
| `Demul.ScalarGatherAgrees` | src/agora/dodemul.cc:124-135 | The scalar gather's source index for subcarrier `s0 + j` and antenna a is the layout's address of that sample. |
| `Demul.SimdGatherIndex` | src/agora/dodemul.cc:104-119 | The SIMD gather's read index for lane `lane` of group `group` at subcarrier `s0 + j`. It is a definition with no contract of its own; `SimdGatherAgrees` proves it equals the layout address of antenna `4*group + lane`. |
| `Demul.SimdGatherAgrees` | src/agora/dodemul.cc:103-123 | For antenna `4*group + lane`, the SIMD gather's source reads the layout's sample. The source starts at the block offset of `s0`, advances 4T complex per group, and has lane offsets 0, T, 2T, 3T. So the SIMD path fills the same cells as the scalar path. |
| `Demul.MatVecEntry` | src/agora/dodemul.cc:157-164 | Entry u of the product of the column-major UeNum x BsAntNum zero-forcing matrix with the receive vector: the sum over antennas a of `z[a*UeNum + u] * x[a]`. It is a definition with no contract of its own; `ZeroRowEqualizesToZero`, `SelectAntennaZero` and `ZeroVectorEqualizesToZero` are proved about it. |
| `Demul.ZeroRowEqualizesToZero` | src/agora/dodemul.cc:157-164 | A UE whose row of the zero-forcing matrix is all zero receives zero, whatever the receive vector. |
| `Demul.SelectAntennaZero` | src/agora/dodemul.cc:157-164 | The matrix-vector sum in which row u selects antenna 0 returns antenna 0's sample. |
| `Demul.ZeroVectorEqualizesToZero` | src/agora/dodemul.cc:157-164 | An all-zero receive vector equalizes to zero, whatever the matrix. |
| `Demul.BlockLen` | src/agora/dodemul.cc:85-86 | `max_sc_ite` is `min(DemulBlockSize, OfdmDataNum - base_sc_id)`: at most one block, and never past the last data subcarrier. |
| `Demul.CacheLineFits` | src/agora/dodemul.cc:87-89 | With an aligned base and a block length that is a whole number of cache lines, every aligned start in the block leaves room for a whole line, and the next start is aligned. |
| `Demul.FrameSlot` | src/agora/dodemul.cc:74 | The frame slot is below kFrameWnd. |
| `Demul.PrevFrameSlot` | src/agora/dodemul.cc:167-170 | The reset slot `(frame_id - 1) % kFrameWnd` in size_t arithmetic is below kFrameWnd and never the frame's own slot. For frame_id > 0 it is the previous frame's slot; for frame 0 it is slot 15. |
| `Demul.PilotTranspose` | src/agora/dodemul.cc:28-32 | `ue_pilot_data_` has UeNum rows of OfdmDataNum entries. Entry (u, sc) is taken from the column-major pilot matrix at `u*OfdmDataNum + sc`. |
| `Demul.PilotTransposeKeepsEntries` | src/agora/dodemul.cc:28-32 | Every raw pilot entry i is found in the transposed matrix at UE `i / OfdmDataNum`, subcarrier `i % OfdmDataNum`, so no entry is lost. |
| `Demul.DoDemul.constructor` | src/agora/dodemul.cc:11-32 | The constructor keeps the shared tables, allocates the 8 x kMaxAntennas gather scratch, and stores the transposed pilot matrix. |
| `Demul.DoDemul.SymbolIdxUl` | src/agora/dodemul.cc:69 | `symbol_idx_ul` is `GetULSymbolIdx(symbol_id)`. It is a definition with no contract of its own; `TaskFits` bounds it below NumULSyms. |
| `Demul.DoDemul.TaskRow` | src/agora/dodemul.cc:70-71 | `total_data_symbol_idx_ul` is `GetTotalDataSymbolIdxUl(frame_id, symbol_idx_ul)`, the row of the data and equalization buffers. It is a definition with no contract of its own; `TaskFits` bounds it by both buffers. |
| `Demul.DoDemul.PhaseTerm` | src/agora/dodemul.cc:181-183 | The phase contribution of UE u at subcarrier sc is `sign(equalized[u] * conj(ue_pilot_data_[u][sc]))`. It is a definition with no contract of its own; `AccumulatePhase` adds it, and `PhaseSum` sums it. |
| `Demul.DoDemul.PhaseSumSkipsDataSubcarriers` | src/agora/dodemul.cc:175-184 | Subcarriers that are not multiples of the pilot spacing add nothing to the accumulator. |
| `Demul.DoDemul.PhaseSumSplit` | src/agora/dodemul.cc:175-184 | The accumulated phase over adjacent ranges of subcarriers adds up. |
| `Demul.DoDemul.PhaseAfterCompose` | src/agora/dodemul.cc:166-184 | For every accumulator cell, processing [lo, mid) and then [mid, hi) gives the same value as processing [lo, hi). This includes the previous-slot reset. |
| `Demul.DoDemul.Gather` | src/agora/dodemul.cc:90-136 | After step 1, gather cell `j*BsAntNum + a` holds the sample of antenna a at subcarrier `s0 + j`, for every j < 8 and a < BsAntNum. This holds whichever path the build and the antenna count select. |
| `Demul.DoDemul.GatherScalar` | src/agora/dodemul.cc:124-135 | The scalar loop nest fills every gather cell with its sample. |
| `Demul.DoDemul.ScalarGatherLine` | src/agora/dodemul.cc:127-134 | The inner loop writes the BsAntNum samples of one subcarrier at `dst .. dst+BsAntNum` and leaves every other gather cell unchanged. |
| `Demul.DoDemul.GatherSimd` | src/agora/dodemul.cc:103-123 | The SIMD loop over antenna groups fills every gather cell with its sample. |
| `Demul.DoDemul.SimdGatherGroup` | src/agora/dodemul.cc:114-121 | One group fills antennas `4*group .. 4*group+3` of all 8 subcarriers and leaves every other gather cell unchanged. |
| `Demul.DoDemul.SimdGatherLanes` | src/agora/dodemul.cc:115-117 | One 256-bit gather and store puts antennas `4*group .. 4*group+3` of one subcarrier into their gather cells and leaves every other gather cell unchanged. |
| `Demul.DoDemul.ZfDot` | src/agora/dodemul.cc:157-164 | The antenna-by-antenna sum over the gathered vector equals `Σ_a Z[u + a*UeNum] * x[a]`. Z is the matrix of the frame slot and of `GetZfScId(sc)`, and x is the subcarrier's receive vector. |
| `Demul.DoDemul.Equalize` | src/agora/dodemul.cc:144-164 | `equal_buffer[row][sc*UeNum + u]` becomes the zero-forcing estimate for every u. No other cell of the equalization buffer changes. |
| `Demul.DoDemul.ResetPhase` | src/agora/dodemul.cc:167-174 | The first UeNum*NumULSyms accumulators of the given slot become zero. Every other accumulator is unchanged. |
| `Demul.DoDemul.AccumulatePhase` | src/agora/dodemul.cc:175-184 | Accumulator `[slot][symbol_idx_ul*UeNum + u]` gains `sign(equal[u] * conj(pilot[u][sc]))` for every u. Every other accumulator is unchanged. |
| `Demul.DoDemul.PhaseAfterOne` | src/agora/dodemul.cc:166-184 | One subcarrier's step is PhaseAfter over the one-subcarrier range: the reset when `symbol_idx_ul == 0` and `sc == 0`, then accumulation when sc is a multiple of the pilot spacing. |
| `Demul.DoDemul.FirstSymbolClearsPreviousSlot` | src/agora/dodemul.cc:167-184 | At uplink symbol 0, block 0, every accumulator of the previous frame's slot ends at zero. The frame's own accumulators are not cleared: each ends as its old value plus the phase sum. |
| `Demul.DoDemul.PilotAfterNothing` | src/agora/dodemul.cc:166-184 | An empty range of subcarriers leaves the accumulator table unchanged. |
| `Demul.DoDemul.PilotAfterCompose` | src/agora/dodemul.cc:141-184 | Over the accumulator table, processing [lo, mid) and then [mid, hi) is processing [lo, hi). |
| `Demul.DoDemul.EqualAfterWrites` | src/agora/dodemul.cc:145-164 | After equalizing [lo, hi), entry u of every subcarrier sc in the range holds the zero-forcing estimate of UE u at sc. |
| `Demul.DoDemul.EqualAfterCompose` | src/agora/dodemul.cc:141-165 | Over the equalization table, equalizing [lo, mid) and then [mid, hi) is equalizing [lo, hi). |
| `Demul.DoDemul.EqualAfterNothing` | src/agora/dodemul.cc:141-165 | An empty range leaves the equalization table unchanged. |
| `Demul.DoDemul.ProcessedNothing` | src/agora/dodemul.cc:89-189 | The loop invariant of the kernel holds before any subcarrier is processed. |
| `Demul.DoDemul.ProcessedChain` | src/agora/dodemul.cc:89-189 | Progress over adjacent ranges composes, in both tables at once. |
| `Demul.DoDemul.DemulSubcarrier` | src/agora/dodemul.cc:141-188 | One subcarrier turns the equalization table into EqualAfter over `[sc, sc+1)` and the accumulator table into PilotAfter over the same range. |
| `Demul.DoDemul.TrackPhaseTables` | src/agora/dodemul.cc:166-184 | Clearing the previous slot (when the reset applies) and then adding the phase terms (at a pilot-spaced subcarrier) turns any accumulator table into PilotAfter over `[sc, sc+1)`. |
| `Demul.DoDemul.TrackPhase` | src/agora/dodemul.cc:166-184 | After the conditional reset and the conditional accumulation, the accumulator table is PilotAfter over `[sc, sc+1)`. |
| `Demul.DoDemul.DemulCacheLine` | src/agora/dodemul.cc:139-189 | The 8 subcarriers of a cache line, in increasing order, process `[s0, s0+8)` in both tables. |
| `Demul.DoDemul.ProcessCacheLine` | src/agora/dodemul.cc:89-189 | One iteration of the cache-line loop (the gather, then step 2) processes `[s0, s0+8)` in both tables. |
| `Demul.DoDemul.Launch` | src/agora/dodemul.cc:64-193 | The demodulation task returns `EventData(kDemul, tag)` with the tag unchanged. The equalization table becomes EqualAfter over `[base_sc_id, base_sc_id + max_sc_ite)`: exactly those columns of the demodulation task's row hold the estimates, and nothing else changes. The accumulator table becomes PilotAfter over the same block. |
| `Buffers.GetTaskQueue` | src/agora/agora_buffer.h:113-117 | The assertion fails exactly for `(kPacketTX, 0)`, and it is checked first. An otherwise valid request succeeds exactly when `qid < kScheduleQueues` and `event_type < kNumEventTypes`, else it is out of range. A successful request designates grid cell `[qid][event_type]`. |
| `Buffers.TaskQueuesDistinct` | src/agora/agora_buffer.h:127-128 | Distinct successful `(event_type, qid)` requests designate distinct queues. |
| `Buffers.GetCompQueue` | src/agora/agora_buffer.h:119-121 | The request succeeds exactly when `qid < kScheduleQueues`, otherwise it is out of range. A successful request designates completion queue `qid`, which is neither a task queue nor the TX queue. |
| `Buffers.CompQueuesDistinct` | src/agora/agora_buffer.h:119-121 | Distinct successful `qid`s designate distinct completion queues: one completion queue per schedule queue. |
| `Buffers.GetPacketTxConq` | src/agora/agora_buffer.h:110-112 | It returns the separate TX queue member, which is neither a task-queue grid cell nor a completion queue, and which no task-queue or completion-queue request reaches. |
| `Buffers.AllQueues` | src/agora/agora_buffer.h:125-129 | The queues of a MessageInfo are exactly the grid cells, the completion queues and the TX queue. |
| `Buffers.Step` | src/agora/agora_buffer.h:127-129 | A push appends at the back of one queue. A pop takes the front item of one queue, or nothing when it is empty. No other queue changes. |
| `Buffers.RunIsFifo` | src/agora/agora_buffer.h:127-129 | For any interleaving of pushes and pops over all queues, consider queue q. What left q, followed by what q still holds, equals what q held followed by what was pushed onto q. |
| `Buffers.FifoOrder` | src/agora/agora_buffer.h:127-129 | Items leave a queue that starts empty as a prefix of the items pushed onto it, in push order. |
| `Buffers.RunIndependent` | src/agora/agora_buffer.h:127-128 | A queue's final contents and the items it hands out are those of the run restricted to the operations on that queue. |
| `Buffers.MessageInfo.constructor` | src/agora/agora_buffer.h:105-107 | Every queue starts empty. |
| `Buffers.MessageInfo.Push` | src/agora/agora_buffer.h:127-129 | Pushing through a designated queue changes the fabric exactly as Step does. |
| `Buffers.MessageInfo.TryPop` | src/agora/agora_buffer.h:127-129 | Popping through a designated queue returns and removes its front item, if any, exactly as Step does. |
| `Buffers.AgoraBuffer.GetCsi` | src/agora/agora_buffer.h:30-32 | Returns `csi_buffer_`, a kFrameWnd x kMaxUEs grid that is neither beam-matrix grid. |
| `Buffers.AgoraBuffer.GetUlBeamMatrix` | src/agora/agora_buffer.h:33-35 | Returns `ul_beam_matrix_`, a kFrameWnd x kMaxDataSCs grid that is neither the downlink grid nor the CSI grid. |
| `Buffers.AgoraBuffer.GetDlBeamMatrix` | src/agora/agora_buffer.h:36-38 | Returns `dl_beam_matrix_`, a kFrameWnd x kMaxDataSCs grid that is neither the uplink grid nor the CSI grid. |
| `Buffers.AgoraBuffer.GetDemod` | src/agora/agora_buffer.h:39-41 | Returns `demod_buffer_`, a kFrameWnd x kMaxSymbols x kMaxUEs cube that is not the decoded-bits cube. |
| `Buffers.AgoraBuffer.GetDecod` | src/agora/agora_buffer.h:42-44 | Returns `decoded_buffer_`, a kFrameWnd x kMaxSymbols x kMaxUEs cube that is not the demodulation cube. |
| `Buffers.AgoraBuffer.constructor` | src/agora/agora_buffer.h:78-82 | The five windowed tables are fresh, distinct allocations with those dimensions. |
| `Statistics.TsType.Index` | src/millipede/stats.hpp:41-58 | Every timestamp type maps to a row below kNumTimestampTypes. The last type, kTXDone, maps to kNumTimestampTypes - 1. |
| `Statistics.IndexInjective` | src/millipede/stats.hpp:41-56 | Two timestamp types share a row exactly when they are the same type. |
| `Statistics.StatsSlot` | src/millipede/stats.hpp:88-89 | The column of a frame is below kNumStatsFrames, and it is the frame id itself for the first kNumStatsFrames frames. |
| `Statistics.GetTsc` | src/millipede/stats.hpp:95-99 | `master_get_tsc(t, f)` reads cell `[t][f % kNumStatsFrames]`. It is a definition with no contract of its own; `GetAfterSet`, `WindowAliases` and `LastWriterWins` are proved about it. |
| `Statistics.SetTsc` | src/millipede/stats.hpp:86-91 | `master_set_tsc(t, f)` changes exactly the cell `[t][f % kNumStatsFrames]`. |
| `Statistics.GetAfterSet` | src/millipede/stats.hpp:86-99 | A read after a write returns the written value when the type and the slot agree, and the earlier value otherwise. |
| `Statistics.WindowAliases` | src/millipede/stats.hpp:88-98 | Frames f and `f + k*kNumStatsFrames` share a slot, so the later write overwrites the earlier one. |
| `Statistics.SlotPeriodic` | src/millipede/stats.hpp:88-89 | The slot of `f + k*kNumStatsFrames` is the slot of f. |
| `Statistics.LastWriterWins` | src/millipede/stats.hpp:86-99 | After any log of `master_set_tsc` calls, `master_get_tsc(t, f)` returns the value of the newest call with the same type and the same slot. If there was none, it returns the initial value. |
| `Statistics.NewDurationStat` | src/millipede/stats.hpp:20-24 | A fresh DurationStat has kMaxStatBreakdown durations, all zero, and a zero task count. |
| `Statistics.GetDurationStat` | src/millipede/stats.hpp:140-144 | `get_duration_stat(d, tid)` designates the current record of `(tid, d)`. |
| `Statistics.GetDurationStatOld` | src/millipede/stats.hpp:149-153 | `get_duration_stat_old(d, tid)` designates the stale record of `(tid, d)`. |
| `Statistics.DurationRecordsDistinct` | src/millipede/stats.hpp:140-153 | Current and stale records are never the same record, and each getter is injective in `(d, tid)`. |
| `Statistics.Stats.constructor` | src/millipede/stats.hpp:229-237 | Every current and stale record starts as a fresh DurationStat. |
| `Statistics.Stats.MasterSetTsc` | src/millipede/stats.hpp:86-91 | The timestamp table becomes SetTsc of the old table: one cell changes. |
| `Statistics.Stats.MasterGetTsc` | src/millipede/stats.hpp:95-99 | The read returns GetTsc of the current table. |
| `Statistics.Stats.Store` | src/millipede/stats.hpp:231-237 | A write through a record pointer changes that record only. The other copy of the same `(tid, d)` is unchanged, because the current and stale arrays do not alias. |

## Left out

- The MKL JIT and Armadillo matrix product is an explicit sum over
  antennas (`MatVecEntry`). The AVX2 gather is index arithmetic, and
  floating point is exact integer arithmetic. Rounding and the numeric
  library's sign-of-zero convention are not modelled.
- The timing instrumentation of `Launch` is left out: the `WorkerRdtsc`
  calls and the `duration_stat_` updates at src/agora/dodemul.cc:75, 90,
  137, 155 and 185-191. So is the debug `printf`. These touch no buffer
  the kernel computes.
- `gen_tag_t` bit-field packing is left out; the tag is kept decoded.
  The bodies of the configuration accessors and of `Frame()` are in
  `config.h`, which is not part of this model.
- The constructor's MKL JIT setup and its error path, and the destructor,
  are left out. The pilot matrix is built with `UeAntNum` columns, while
  the model uses UeNum, which the kernel's elementwise product with a
  UeNum x 1 vector requires anyway.
- `Demul.DoDemul.Launch` requires `max_sc_ite % kSCsPerCacheline == 0`
  and an aligned `base_sc_id`, rather than modelling the abort of the
  debug `assert` at line 87. The alignment is the assumption that the
  comment at lines 95-97 states.
- Concurrency is left out: the queues are shared between threads, and
  other stages write the data and matrix tables. Tables written by other
  stages are values that do not change during a task.
- The packet-TX queue, a moodycamel `ConcurrentQueue`, is modelled as one
  FIFO sequence whose pushes always succeed. The real queue orders items
  only per producer, so `try_dequeue` may return a later item of another
  producer first. Its `enqueue` can also fail when allocation fails. So
  `RunIsFifo` and `FifoOrder`, applied to `PacketTxQueue`, describe the
  queue only when a single producer pushes and no allocation fails. The
  capacity argument is left out too: it is a sizing hint.
- The `Table`-typed getters of `AgoraBuffer` are left out: `GetFft`,
  `GetEqual`, `GetUeSpecPilot`, `GetIfft`, the calibration tables, the
  downlink bit tables and the socket buffers. Their dimensions come from
  `AllocateTables` in the implementation file, which is not part of this
  model. Allocation and freeing are left out too.
- The `Stats` constructor's other parameters are left out, and so are
  `last_frame_id` and `frame_start`. So are the floating-point
  conversions (`master_get_us_since`, `master_get_us_from_ref`,
  `master_get_delta_us`, `cycles_to_us`), `Stats_worker_per_frame`, the
  `*_us` arrays, and the update, print and save routines.
- The master timestamps are integers, not `double`. The cycle counter
  that `master_set_tsc` reads is a parameter. The `Stats` constructor is
  only declared in the header (src/millipede/stats.hpp:62-64), so the
  model makes no claim about the timestamp table's initial contents.
- The values of the constants are assumed, because the headers that
  define them (`Symbols.hpp` for the `Stats` constants, and headers reached
  through the includes of `dodemul.cc` and `agora_buffer.h` for the
  others) are not part of this model:
  kFrameWnd 40, kSCsPerCacheline 8, kTransposeBlockSize 64, kMaxAntennas
  64, kMaxUEs 64, kMaxDataSCs 3300, kMaxSymbols 70, kScheduleQueues 2, kMaxThreads 128,
  kNumStatsFrames 10000, and the event-type and Doer-type ordinals. Three
  proofs depend on the assumed values:
  - `PrevFrameSlot` needs kFrameWnd = 40 for its "frame 0 clears slot 15"
    clause.
  - `SimdGatherAgrees` needs kSCsPerCacheline = 8. The source advances the
    SIMD source by `kSCsPerCacheline * kTransposeBlockSize` floats per
    group, and that is four antennas' runs only for 8.
  - `SameTransposeBlock` needs kSCsPerCacheline to divide
    kTransposeBlockSize.
