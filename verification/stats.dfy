/** The master's timestamp table and the per-worker duration records of
    Stats (src/millipede/stats.hpp). */
module Statistics {
  import opened Symbols
  import opened Message

  /** Number of stages a worker's task duration is broken down into. */
  const MaxStatBreakdown: nat := 4

  /** Number of timestamp types: one row of the master table each. */
  const NumTimestampTypes: nat := 14

  /** The points in a frame's processing at which the master takes a
      timestamp, in declaration order. */
  datatype TsType =
    | PilotRX | ProcessingStarted | PilotAllRX | FFTDone | ZFDone | DemulDone | RXDone
    | RCDone | EncodeDone | DecodeDone | PrecodeDone | IFFTDone | TXProcessedFirst | TXDone
  {
    /** The row of the type: its position in the declaration. The count of
        types is the row of the last one plus one, and no two types share a
        row. */
    function Index(): (i: nat)
      ensures i < NumTimestampTypes
      ensures i == NumTimestampTypes - 1 <==> this == TXDone
    {
      match this
      case PilotRX => 0
      case ProcessingStarted => 1
      case PilotAllRX => 2
      case FFTDone => 3
      case ZFDone => 4
      case DemulDone => 5
      case RXDone => 6
      case RCDone => 7
      case EncodeDone => 8
      case DecodeDone => 9
      case PrecodeDone => 10
      case IFFTDone => 11
      case TXProcessedFirst => 12
      case TXDone => 13
    }
  }

  /** Distinct timestamp types address distinct rows. */
  lemma IndexInjective(t: TsType, u: TsType)
    ensures t.Index() == u.Index() <==> t == u
  {
  }

  // ---------------------------------------------------------------------
  // The master timestamp table as a value.

  /** master_timestamps: one row per timestamp type, one column per slot of
      the statistics window. */
  type TscTable = seq<seq<int>>

  predicate IsTable(tbl: TscTable) {
    |tbl| == NumTimestampTypes && forall i | 0 <= i < |tbl| :: |tbl[i]| == NumStatsFrames
  }

  /** The column of a frame: frames kNumStatsFrames apart share it. */
  function StatsSlot(frameId: nat): (s: nat)
    ensures s < NumStatsFrames
    ensures frameId < NumStatsFrames ==> s == frameId
  {
    frameId % NumStatsFrames
  }

  /** What master_get_tsc reads. */
  function GetTsc(tbl: TscTable, t: TsType, frameId: nat): (ts: int)
    requires IsTable(tbl)
  {
    tbl[t.Index()][StatsSlot(frameId)]
  }

  /** What master_set_tsc writes: exactly the cell of (t, frame slot). */
  function SetTsc(tbl: TscTable, t: TsType, frameId: nat, tsc: int): (tbl': TscTable)
    requires IsTable(tbl)
    ensures IsTable(tbl')
    ensures forall i, j | 0 <= i < NumTimestampTypes && 0 <= j < NumStatsFrames ::
              tbl'[i][j] == if i == t.Index() && j == StatsSlot(frameId) then tsc else tbl[i][j]
  {
    tbl[t.Index() := tbl[t.Index()][StatsSlot(frameId) := tsc]]
  }

  /** A read after a write returns the written value when type and slot
      agree, and the earlier value otherwise. */
  lemma GetAfterSet(tbl: TscTable, t: TsType, frameId: nat, tsc: int, u: TsType, g: nat)
    requires IsTable(tbl)
    ensures GetTsc(SetTsc(tbl, t, frameId, tsc), u, g)
         == if t == u && StatsSlot(frameId) == StatsSlot(g) then tsc else GetTsc(tbl, u, g)
  {
    IndexInjective(t, u);
  }

  /** Frames kNumStatsFrames apart share a slot: a later write for one
      overwrites what an earlier write stored for the other. */
  lemma {:induction false} WindowAliases(tbl: TscTable, t: TsType, frameId: nat, k: nat, earlier: int, later: int)
    requires IsTable(tbl)
    ensures StatsSlot(frameId + k * NumStatsFrames) == StatsSlot(frameId)
    ensures GetTsc(SetTsc(SetTsc(tbl, t, frameId, earlier), t, frameId + k * NumStatsFrames, later), t, frameId) == later
  {
    SlotPeriodic(frameId, k);
  }

  lemma {:induction false} SlotPeriodic(frameId: nat, k: nat)
    ensures StatsSlot(frameId + k * NumStatsFrames) == StatsSlot(frameId)
    decreases k
  {
    if k > 0 {
      SlotPeriodic(frameId, k - 1);
      calc {
        StatsSlot(frameId + k * NumStatsFrames);
        (frameId + (k - 1) * NumStatsFrames + NumStatsFrames) % NumStatsFrames;
        (frameId + (k - 1) * NumStatsFrames) % NumStatsFrames;
      }
    }
  }

  /** One call of master_set_tsc: the type, the frame and the cycle counter
      read at the time of the call. */
  datatype TscWrite = TscWrite(tsType: TsType, frameId: nat, tsc: int)

  /** The table after a log of writes, oldest first. */
  function Replay(tbl: TscTable, log: seq<TscWrite>): (tbl': TscTable)
    requires IsTable(tbl)
    ensures IsTable(tbl')
    decreases |log|
  {
    if log == [] then tbl
    else
      var w := log[|log| - 1];
      SetTsc(Replay(tbl, log[..|log| - 1]), w.tsType, w.frameId, w.tsc)
  }

  /** The value of the newest write in the log to the cell of (t, frame). */
  function LastWrite(log: seq<TscWrite>, t: TsType, frameId: nat): (v: Option<int>)
    decreases |log|
  {
    if log == [] then None
    else
      var w := log[|log| - 1];
      if w.tsType == t && StatsSlot(w.frameId) == StatsSlot(frameId) then Some(w.tsc)
      else LastWrite(log[..|log| - 1], t, frameId)
  }

  /** master_get_tsc returns what the newest master_set_tsc for the same
      type and the same slot stored, or the initial value if there was none. */
  lemma {:induction false} LastWriterWins(tbl: TscTable, log: seq<TscWrite>, t: TsType, frameId: nat)
    requires IsTable(tbl)
    ensures GetTsc(Replay(tbl, log), t, frameId)
         == match LastWrite(log, t, frameId) case Some(v) => v case None => GetTsc(tbl, t, frameId)
    decreases |log|
  {
    if log != [] {
      var w := log[|log| - 1];
      LastWriterWins(tbl, log[..|log| - 1], t, frameId);
      GetAfterSet(Replay(tbl, log[..|log| - 1]), w.tsType, w.frameId, w.tsc, t, frameId);
    }
  }

  // ---------------------------------------------------------------------
  // Per-worker duration records.

  /** task_duration (TSC cycles per breakdown stage) and task_count. */
  datatype DurationStat = DurationStat(taskDuration: seq<nat>, taskCount: nat)

  /** DurationStat(): every counter zero. */
  function NewDurationStat(): (d: DurationStat)
    ensures |d.taskDuration| == MaxStatBreakdown && d.taskCount == 0
    ensures forall i | 0 <= i < |d.taskDuration| :: d.taskDuration[i] == 0
  {
    DurationStat([0, 0, 0, 0], 0)
  }

  /** One record of a Stats object: the current one of (thread, Doer type),
      or the master's stale copy of it. */
  datatype DurationRecord = Current(thread: nat, doer: nat) | Stale(thread: nat, doer: nat)

  /** get_duration_stat: the current record of (thread, Doer type). */
  function GetDurationStat(doer: nat, threadId: nat): (r: DurationRecord)
    requires doer < NumDoerTypes && threadId < MaxThreads
    ensures r.Current? && r.thread < MaxThreads && r.doer < NumDoerTypes
    ensures r.thread == threadId && r.doer == doer
  {
    Current(threadId, doer)
  }

  /** get_duration_stat_old: the master's stale copy of the record of
      (thread, Doer type). */
  function GetDurationStatOld(doer: nat, threadId: nat): (r: DurationRecord)
    requires doer < NumDoerTypes && threadId < MaxThreads
    ensures r.Stale? && r.thread < MaxThreads && r.doer < NumDoerTypes
    ensures r.thread == threadId && r.doer == doer
  {
    Stale(threadId, doer)
  }

  /** Every (thread, Doer type, current or stale) addresses its own record. */
  lemma DurationRecordsDistinct(d1: nat, t1: nat, d2: nat, t2: nat)
    requires d1 < NumDoerTypes && t1 < MaxThreads && d2 < NumDoerTypes && t2 < MaxThreads
    ensures GetDurationStat(d1, t1) != GetDurationStatOld(d2, t2)
    ensures GetDurationStat(d1, t1) == GetDurationStat(d2, t2) ==> d1 == d2 && t1 == t2
    ensures GetDurationStatOld(d1, t1) == GetDurationStatOld(d2, t2) ==> d1 == d2 && t1 == t2
  {
  }

  predicate InRange(r: DurationRecord) {
    r.thread < MaxThreads && r.doer < NumDoerTypes
  }

  // ---------------------------------------------------------------------
  // The Stats object.

  class Stats {
    /** master_timestamps[type][frame slot] */
    const masterTimestamps: array2<int>
    /** worker_durations[thread].duration_stat[doer] */
    const workerDurations: array2<DurationStat>
    /** worker_durations_old[thread].duration_stat[doer] */
    const workerDurationsOld: array2<DurationStat>

    ghost predicate Valid()
      reads this
    {
      && masterTimestamps.Length0 == NumTimestampTypes && masterTimestamps.Length1 == NumStatsFrames
      && workerDurations.Length0 == MaxThreads && workerDurations.Length1 == NumDoerTypes
      && workerDurationsOld.Length0 == MaxThreads && workerDurationsOld.Length1 == NumDoerTypes
      && workerDurations != workerDurationsOld
    }

    /** The master timestamp table as a value. */
    ghost function Table(): (tbl: TscTable)
      reads this, masterTimestamps
      requires Valid()
      ensures IsTable(tbl)
      ensures forall i, j | 0 <= i < NumTimestampTypes && 0 <= j < NumStatsFrames :: tbl[i][j] == masterTimestamps[i, j]
    {
      seq(NumTimestampTypes, i requires 0 <= i < NumTimestampTypes reads masterTimestamps =>
        seq(NumStatsFrames, j requires 0 <= j < NumStatsFrames reads masterTimestamps => masterTimestamps[i, j]))
    }

    /** The contents of a record. */
    function Record(r: DurationRecord): (d: DurationStat)
      reads this, workerDurations, workerDurationsOld
      requires Valid() && InRange(r)
    {
      match r
      case Current(thread, doer) => workerDurations[thread, doer]
      case Stale(thread, doer) => workerDurationsOld[thread, doer]
    }

    /** Every record starts as a fresh DurationStat. */
    constructor ()
      ensures Valid()
      ensures forall r | InRange(r) :: Record(r) == NewDurationStat()
    {
      masterTimestamps := new int[NumTimestampTypes, NumStatsFrames]((i, j) => 0);
      workerDurations := new DurationStat[MaxThreads, NumDoerTypes]((t, d) => NewDurationStat());
      workerDurationsOld := new DurationStat[MaxThreads, NumDoerTypes]((t, d) => NewDurationStat());
    }

    /** master_set_tsc, with the cycle counter read at the call passed in. */
    method MasterSetTsc(t: TsType, frameId: nat, tsc: int)
      requires Valid()
      modifies masterTimestamps
      ensures Table() == SetTsc(old(Table()), t, frameId, tsc)
    {
      masterTimestamps[t.Index(), StatsSlot(frameId)] := tsc;
      ghost var tbl' := SetTsc(old(Table()), t, frameId, tsc);
      forall i | 0 <= i < NumTimestampTypes
        ensures Table()[i] == tbl'[i]
      {
      }
    }

    /** master_get_tsc. */
    function MasterGetTsc(t: TsType, frameId: nat): (v: int)
      reads this, masterTimestamps
      requires Valid()
      ensures v == GetTsc(Table(), t, frameId)
    {
      masterTimestamps[t.Index(), StatsSlot(frameId)]
    }

    /** A write through the pointer that get_duration_stat or
        get_duration_stat_old returned: that record changes and no other,
        in particular not the other copy of the same (thread, Doer type). */
    method Store(r: DurationRecord, d: DurationStat)
      requires Valid() && InRange(r)
      modifies workerDurations, workerDurationsOld
      ensures Record(r) == d
      ensures forall r' | InRange(r') && r' != r :: Record(r') == old(Record(r'))
    {
      match r
      case Current(thread, doer) => workerDurations[thread, doer] := d;
      case Stale(thread, doer) => workerDurationsOld[thread, doer] := d;
    }
  }
}
