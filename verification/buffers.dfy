/** The buffer store shared by the pipeline stages (src/agora/agora_buffer.h):
    the frame-windowed tables of AgoraBuffer and the task-queue fabric of
    MessageInfo. */
module Buffers {
  import opened Symbols
  import opened Message
  import opened ComplexArith

  /** How an accessor of MessageInfo refuses a request: the run-time assertion
      (RtAssert) fails, or std::array::at throws std::out_of_range. */
  datatype Failure = AssertionFailed | OutOfRange

  datatype Result<T> = Ok(value: T) | Err(failure: Failure)

  /** One queue of a MessageInfo: a cell of the task-queue grid (schedule
      queue `qid`, event type `eventType`), a completion queue, or the
      packet-TX queue. */
  datatype QueueId = TaskQueue(qid: nat, eventType: nat) | CompQueue(qid: nat) | PacketTxQueue

  /** The queue is one that a MessageInfo owns. */
  predicate Owned(q: QueueId) {
    match q
    case TaskQueue(qid, t) => qid < ScheduleQueues && t < NumEventTypes
    case CompQueue(qid) => qid < ScheduleQueues
    case PacketTxQueue => true
  }

  /** Every queue a MessageInfo owns. */
  function AllQueues(): (s: set<QueueId>)
    ensures forall q :: q in s <==> Owned(q)
  {
    (set qid: nat, t: nat | qid < ScheduleQueues && t < NumEventTypes :: TaskQueue(qid, t))
    + (set qid: nat | qid < ScheduleQueues :: CompQueue(qid))
    + {PacketTxQueue}
  }

  /** MessageInfo::GetTaskQueue: the assertion is checked first and refuses
      exactly (kPacketTX, 0); then `.at(qid)` and `.at(event_type)` refuse an
      index past the end of the grid. */
  function GetTaskQueue(eventType: nat, qid: nat): (r: Result<QueueId>)
    ensures r == Err(AssertionFailed) <==> eventType == EventPacketTX && qid == 0
    ensures r.Ok? <==> !(eventType == EventPacketTX && qid == 0) && qid < ScheduleQueues && eventType < NumEventTypes
    ensures r.Ok? ==> r.value == TaskQueue(qid, eventType) && Owned(r.value)
  {
    if eventType == EventPacketTX && qid == 0 then Err(AssertionFailed)
    else if qid >= ScheduleQueues then Err(OutOfRange)
    else if eventType >= NumEventTypes then Err(OutOfRange)
    else Ok(TaskQueue(qid, eventType))
  }

  /** MessageInfo::GetCompQueue: one completion queue per schedule queue,
      none of them reachable through GetTaskQueue. */
  function GetCompQueue(qid: nat): (r: Result<QueueId>)
    ensures r.Ok? <==> qid < ScheduleQueues
    ensures r.Err? ==> r.failure == OutOfRange
    ensures r.Ok? ==> r.value == CompQueue(qid) && Owned(r.value) && r.value != PacketTxQueue
    ensures r.Ok? ==> forall t: nat, q: nat :: GetTaskQueue(t, q) != Ok(r.value)
  {
    if qid < ScheduleQueues then Ok(CompQueue(qid)) else Err(OutOfRange)
  }

  /** MessageInfo::GetPacketTXConq: the packet-TX queue, which no task-queue
      or completion-queue request reaches. */
  function GetPacketTxConq(): (r: QueueId)
    ensures Owned(r) && !r.TaskQueue? && !r.CompQueue?
    ensures forall t: nat, q: nat :: GetTaskQueue(t, q) != Ok(r)
    ensures forall q: nat :: GetCompQueue(q) != Ok(r)
  {
    PacketTxQueue
  }

  /** Two distinct (event type, qid) requests that both succeed designate
      distinct queues: no cell of the grid is reachable under two names. */
  lemma TaskQueuesDistinct(t1: nat, q1: nat, t2: nat, q2: nat)
    requires GetTaskQueue(t1, q1).Ok? && GetTaskQueue(t2, q2).Ok?
    requires (t1, q1) != (t2, q2)
    ensures GetTaskQueue(t1, q1).value != GetTaskQueue(t2, q2).value
  {
  }

  /** Distinct schedule queues that both succeed designate distinct
      completion queues. */
  lemma CompQueuesDistinct(q1: nat, q2: nat)
    requires GetCompQueue(q1).Ok? && GetCompQueue(q2).Ok? && q1 != q2
    ensures GetCompQueue(q1).value != GetCompQueue(q2).value
  {
  }

  // ---------------------------------------------------------------------
  // The fabric as a value: the contents of every queue, and what pushes and
  // pops do to it.

  /** The contents of every queue, front first. */
  type Fabric = map<QueueId, seq<EventData>>

  /** A push onto a queue (std::queue::push, ConcurrentQueue::enqueue) or a
      pop from it (front then pop after a check for empty, or
      ConcurrentQueue::try_dequeue). */
  datatype Op = Enqueue(queue: QueueId, item: EventData) | Dequeue(queue: QueueId)

  /** The fabric after one operation, and the item the operation took out. */
  datatype Outcome = Outcome(fabric: Fabric, popped: Option<EventData>)

  /** An item that left a queue. */
  datatype Delivery = Delivery(queue: QueueId, item: EventData)

  /** The fabric after a run of operations, and the items taken out, in order. */
  datatype Trace = Trace(fabric: Fabric, delivered: seq<Delivery>)

  function EmptyFabric(): (m: Fabric)
    ensures m.Keys == AllQueues()
    ensures forall q :: q in m ==> m[q] == []
  {
    map q | q in AllQueues() :: []
  }

  /** One operation: a push appends at the back of its queue, a pop takes the
      front of its queue if there is one; no other queue changes. */
  function Step(m: Fabric, op: Op): (o: Outcome)
    requires op.queue in m
    ensures o.fabric.Keys == m.Keys
    ensures forall q :: q in m && q != op.queue ==> o.fabric[q] == m[q]
    ensures op.Enqueue? ==> o.popped == None && o.fabric[op.queue] == m[op.queue] + [op.item]
    ensures op.Dequeue? ==> m[op.queue] == [] ==> o.popped == None && o.fabric[op.queue] == []
    ensures op.Dequeue? ==> m[op.queue] != [] ==> o.popped == Some(m[op.queue][0]) && [m[op.queue][0]] + o.fabric[op.queue] == m[op.queue]
  {
    match op
    case Enqueue(q, x) => Outcome(m[q := m[q] + [x]], None)
    case Dequeue(q) =>
      if m[q] == [] then Outcome(m, None)
      else Outcome(m[q := m[q][1..]], Some(m[q][0]))
  }

  predicate OnOwnedQueues(m: Fabric, ops: seq<Op>) {
    forall i | 0 <= i < |ops| :: ops[i].queue in m
  }

  /** What an operation on `q` that took out `popped` hands out. */
  function Emitted(q: QueueId, popped: Option<EventData>): (ds: seq<Delivery>)
    ensures |ds| <= 1
  {
    match popped
    case None => []
    case Some(x) => [Delivery(q, x)]
  }

  /** A run of operations, one after the other. */
  function Run(m: Fabric, ops: seq<Op>): (t: Trace)
    requires OnOwnedQueues(m, ops)
    ensures t.fabric.Keys == m.Keys
    decreases |ops|
  {
    if ops == [] then Trace(m, [])
    else
      var prev := Run(m, ops[..|ops| - 1]);
      var o := Step(prev.fabric, ops[|ops| - 1]);
      Trace(o.fabric, prev.delivered + Emitted(ops[|ops| - 1].queue, o.popped))
  }

  /** The items a run pushes onto queue `q`, in order. */
  function PushedOnto(ops: seq<Op>, q: QueueId): (s: seq<EventData>)
    decreases |ops|
  {
    if ops == [] then []
    else
      var last := ops[|ops| - 1];
      PushedOnto(ops[..|ops| - 1], q) + (if last.Enqueue? && last.queue == q then [last.item] else [])
  }

  /** The items that left queue `q`, in order. */
  function DeliveredFrom(ds: seq<Delivery>, q: QueueId): (s: seq<EventData>)
    decreases |ds|
  {
    if ds == [] then []
    else
      var last := ds[|ds| - 1];
      DeliveredFrom(ds[..|ds| - 1], q) + (if last.queue == q then [last.item] else [])
  }

  /** Handing out at most one more item from queue `p` adds it to what left
      `p` and to nothing else. */
  lemma DeliveredAfter(ds: seq<Delivery>, p: QueueId, popped: Option<EventData>, q: QueueId)
    ensures DeliveredFrom(ds + Emitted(p, popped), q)
         == DeliveredFrom(ds, q) + (if p == q && popped.Some? then [popped.value] else [])
  {
    if popped.Some? {
      assert (ds + Emitted(p, popped))[..|ds|] == ds;
    } else {
      assert ds + Emitted(p, popped) == ds;
    }
  }

  /** The bookkeeping of a push in RunIsFifo: the pushed item joins the back
      of both sides. */
  lemma PushAccount(out: seq<EventData>, held: seq<EventData>, start: seq<EventData>, pushed: seq<EventData>, x: EventData)
    requires out + held == start + pushed
    ensures out + (held + [x]) == start + (pushed + [x])
  {
    assert out + (held + [x]) == (out + held) + [x];
    assert start + (pushed + [x]) == (start + pushed) + [x];
  }

  /** The bookkeeping of a pop in RunIsFifo: the front item moves from the
      queue to what was handed out. */
  lemma PopAccount(out: seq<EventData>, x: EventData, left: seq<EventData>, total: seq<EventData>)
    requires out + ([x] + left) == total
    ensures (out + [x]) + left == total
  {
    assert (out + [x]) + left == out + ([x] + left);
  }

  /** FIFO per queue, and independence of the queues: whatever operations a
      run performs on any queues, the items that left `q` followed by what is
      still in `q` are exactly what `q` held followed by what was pushed onto
      `q`. Operations on other queues take nothing from `q` and put nothing
      in it. */
  lemma {:induction false} RunIsFifo(m: Fabric, ops: seq<Op>, q: QueueId)
    requires OnOwnedQueues(m, ops) && q in m
    ensures DeliveredFrom(Run(m, ops).delivered, q) + Run(m, ops).fabric[q] == m[q] + PushedOnto(ops, q)
    decreases |ops|
  {
    if ops != [] {
      var init, last := ops[..|ops| - 1], ops[|ops| - 1];
      assert OnOwnedQueues(m, init);
      RunIsFifo(m, init, q);
      var prev := Run(m, init);
      var o := Step(prev.fabric, last);
      DeliveredAfter(prev.delivered, last.queue, o.popped, q);
      var before := DeliveredFrom(prev.delivered, q);
      var delivered, left := DeliveredFrom(Run(m, ops).delivered, q), Run(m, ops).fabric[q];
      var pushed0 := PushedOnto(init, q);
      assert Run(m, ops) == Trace(o.fabric, prev.delivered + Emitted(last.queue, o.popped));
      assert PushedOnto(ops, q) == pushed0 + (if last.Enqueue? && last.queue == q then [last.item] else []);
      if last.queue != q || (last.Dequeue? && prev.fabric[q] == []) {
        assert delivered == before && left == prev.fabric[q];
        assert PushedOnto(ops, q) == pushed0;
      } else if last.Enqueue? {
        assert delivered == before && left == prev.fabric[q] + [last.item];
        PushAccount(before, prev.fabric[q], m[q], pushed0, last.item);
      } else {
        var x := prev.fabric[q][0];
        assert delivered == before + [x] && [x] + left == prev.fabric[q];
        assert PushedOnto(ops, q) == pushed0;
        PopAccount(before, x, left, m[q] + pushed0);
      }
    }
  }

  /** Consequence for a queue that starts empty: what leaves it is a prefix of
      what was pushed onto it, in push order. */
  lemma FifoOrder(m: Fabric, ops: seq<Op>, q: QueueId)
    requires OnOwnedQueues(m, ops) && q in m && m[q] == []
    ensures DeliveredFrom(Run(m, ops).delivered, q) <= PushedOnto(ops, q)
  {
    RunIsFifo(m, ops, q);
    var out := DeliveredFrom(Run(m, ops).delivered, q);
    assert out + Run(m, ops).fabric[q] == PushedOnto(ops, q);
    assert PushedOnto(ops, q)[..|out|] == out;
  }

  /** The operations of a run that touch queue `q`. */
  function On(ops: seq<Op>, q: QueueId): (s: seq<Op>)
    ensures forall i | 0 <= i < |s| :: s[i].queue == q
    decreases |ops|
  {
    if ops == [] then []
    else
      var last := ops[|ops| - 1];
      On(ops[..|ops| - 1], q) + (if last.queue == q then [last] else [])
  }

  /** A step's effect on its own queue depends only on that queue. */
  lemma StepIsLocal(m1: Fabric, m2: Fabric, op: Op)
    requires op.queue in m1 && op.queue in m2 && m1[op.queue] == m2[op.queue]
    ensures Step(m1, op).popped == Step(m2, op).popped
    ensures Step(m1, op).fabric[op.queue] == Step(m2, op).fabric[op.queue]
  {
  }

  /** Partition independence: queue `q` ends up exactly as it would if only
      the operations on `q` had run, and hands out the same items. */
  lemma {:induction false} RunIndependent(m: Fabric, ops: seq<Op>, q: QueueId)
    requires OnOwnedQueues(m, ops) && q in m
    ensures OnOwnedQueues(m, On(ops, q))
    ensures Run(m, ops).fabric[q] == Run(m, On(ops, q)).fabric[q]
    ensures DeliveredFrom(Run(m, ops).delivered, q) == DeliveredFrom(Run(m, On(ops, q)).delivered, q)
    decreases |ops|
  {
    if ops != [] {
      var init := ops[..|ops| - 1];
      assert OnOwnedQueues(m, init);
      RunIndependent(m, init, q);
      if ops[|ops| - 1].queue == q {
        IndependentOwnStep(m, ops, q);
      } else {
        IndependentOtherStep(m, ops, q);
      }
    }
  }

  /** The inductive step of RunIndependent for an operation on another queue:
      neither side changes for `q`. */
  lemma IndependentOtherStep(m: Fabric, ops: seq<Op>, q: QueueId)
    requires ops != [] && OnOwnedQueues(m, ops) && q in m && ops[|ops| - 1].queue != q
    requires OnOwnedQueues(m, ops[..|ops| - 1])
    requires OnOwnedQueues(m, On(ops[..|ops| - 1], q))
    requires Run(m, ops[..|ops| - 1]).fabric[q] == Run(m, On(ops[..|ops| - 1], q)).fabric[q]
    requires DeliveredFrom(Run(m, ops[..|ops| - 1]).delivered, q) == DeliveredFrom(Run(m, On(ops[..|ops| - 1], q)).delivered, q)
    ensures OnOwnedQueues(m, On(ops, q))
    ensures Run(m, ops).fabric[q] == Run(m, On(ops, q)).fabric[q]
    ensures DeliveredFrom(Run(m, ops).delivered, q) == DeliveredFrom(Run(m, On(ops, q)).delivered, q)
  {
    var init, last := ops[..|ops| - 1], ops[|ops| - 1];
    var prev := Run(m, init);
    var o := Step(prev.fabric, last);
    assert Run(m, ops) == Trace(o.fabric, prev.delivered + Emitted(last.queue, o.popped));
    DeliveredAfter(prev.delivered, last.queue, o.popped, q);
    assert On(ops, q) == On(init, q);
  }

  /** The inductive step of RunIndependent for an operation on `q` itself:
      both sides take the same step from the same contents of `q`. */
  lemma IndependentOwnStep(m: Fabric, ops: seq<Op>, q: QueueId)
    requires ops != [] && OnOwnedQueues(m, ops) && q in m && ops[|ops| - 1].queue == q
    requires OnOwnedQueues(m, ops[..|ops| - 1])
    requires OnOwnedQueues(m, On(ops[..|ops| - 1], q))
    requires Run(m, ops[..|ops| - 1]).fabric[q] == Run(m, On(ops[..|ops| - 1], q)).fabric[q]
    requires DeliveredFrom(Run(m, ops[..|ops| - 1]).delivered, q) == DeliveredFrom(Run(m, On(ops[..|ops| - 1], q)).delivered, q)
    ensures OnOwnedQueues(m, On(ops, q))
    ensures Run(m, ops).fabric[q] == Run(m, On(ops, q)).fabric[q]
    ensures DeliveredFrom(Run(m, ops).delivered, q) == DeliveredFrom(Run(m, On(ops, q)).delivered, q)
  {
    var init, last := ops[..|ops| - 1], ops[|ops| - 1];
    var prev, prevOn := Run(m, init), Run(m, On(init, q));
    var o := Step(prev.fabric, last);
    assert Run(m, ops) == Trace(o.fabric, prev.delivered + Emitted(q, o.popped));
    DeliveredAfter(prev.delivered, q, o.popped, q);
    var onOps := On(ops, q);
    assert onOps == On(init, q) + [last];
    assert onOps[..|onOps| - 1] == On(init, q);
    assert OnOwnedQueues(m, onOps);
    var o' := Step(prevOn.fabric, last);
    assert Run(m, onOps) == Trace(o'.fabric, prevOn.delivered + Emitted(q, o'.popped));
    StepIsLocal(prev.fabric, prevOn.fabric, last);
    DeliveredAfter(prevOn.delivered, q, o'.popped, q);
  }

  // ---------------------------------------------------------------------
  // MessageInfo: the queues themselves.

  /** The queues that carry work between the dispatcher and the workers: a
      kScheduleQueues x kNumEventTypes grid of task queues, one completion
      queue per schedule queue, and the packet-TX queue. */
  class MessageInfo {
    /** task_queues[qid][event type] */
    const taskQueues: array2<seq<EventData>>
    /** complete_task_queues_[qid] */
    const completeTaskQueues: array<seq<EventData>>
    /** packet_tx_concurrent_queue */
    var packetTxQueue: seq<EventData>

    ghost predicate Valid()
      reads this
    {
      && taskQueues.Length0 == ScheduleQueues
      && taskQueues.Length1 == NumEventTypes
      && completeTaskQueues.Length == ScheduleQueues
    }

    /** The contents of queue `q`, front first. */
    function Contents(q: QueueId): (s: seq<EventData>)
      reads this, taskQueues, completeTaskQueues
      requires Valid() && Owned(q)
    {
      match q
      case TaskQueue(qid, t) => taskQueues[qid, t]
      case CompQueue(qid) => completeTaskQueues[qid]
      case PacketTxQueue => packetTxQueue
    }

    /** Every queue with its contents. */
    ghost function Fabric(): (m: Fabric)
      reads this, taskQueues, completeTaskQueues
      requires Valid()
      ensures m.Keys == AllQueues()
      ensures forall q :: q in m ==> m[q] == Contents(q)
    {
      map q | q in AllQueues() :: Contents(q)
    }

    /** All queues start empty. The capacity given for the packet-TX queue is
        a sizing hint of the concurrent queue and plays no part here. */
    constructor (queueSize: nat)
      ensures Valid() && Fabric() == EmptyFabric()
    {
      taskQueues := new seq<EventData>[ScheduleQueues, NumEventTypes]((qid, t) => []);
      completeTaskQueues := new seq<EventData>[ScheduleQueues](qid => []);
      packetTxQueue := [];
    }

    /** Replaces the contents of one queue; every other queue keeps its own. */
    method SetContents(q: QueueId, s: seq<EventData>)
      requires Valid() && Owned(q)
      modifies this, taskQueues, completeTaskQueues
      ensures Valid()
      ensures Fabric() == old(Fabric())[q := s]
    {
      ghost var before := Fabric();
      match q
      case TaskQueue(qid, t) =>
        taskQueues[qid, t] := s;
      case CompQueue(qid) =>
        completeTaskQueues[qid] := s;
      case PacketTxQueue =>
        packetTxQueue := s;
      assert forall k | k in Fabric() :: Fabric()[k] == before[q := s][k];
    }

    /** A push onto the queue an accessor designated. */
    method Push(q: QueueId, x: EventData)
      requires Valid() && Owned(q)
      modifies this, taskQueues, completeTaskQueues
      ensures Valid()
      ensures Fabric() == Step(old(Fabric()), Enqueue(q, x)).fabric
    {
      SetContents(q, Contents(q) + [x]);
    }

    /** A pop from the queue an accessor designated, when it is not empty. */
    method TryPop(q: QueueId) returns (x: Option<EventData>)
      requires Valid() && Owned(q)
      modifies this, taskQueues, completeTaskQueues
      ensures Valid()
      ensures Outcome(Fabric(), x) == Step(old(Fabric()), Dequeue(q))
    {
      var s := Contents(q);
      if s == [] {
        x := None;
      } else {
        x := Some(s[0]);
        SetContents(q, s[1..]);
      }
    }
  }

  // ---------------------------------------------------------------------
  // AgoraBuffer: the frame-windowed tables.

  /** The tables whose first dimension is the frame window: a frame's data
      lives in slot `frame_id % kFrameWnd` of each. A cell of a grid stands
      for the buffer its pointer designates. */
  class AgoraBuffer {
    /** csi_buffer_[slot][ue] */
    const csiBuffer: array2<seq<Complex>>
    /** ul_beam_matrix_[slot][sc] */
    const ulBeamMatrix: array2<seq<Complex>>
    /** dl_beam_matrix_[slot][sc] */
    const dlBeamMatrix: array2<seq<Complex>>
    /** demod_buffer_[slot][symbol][ue] */
    const demodBuffer: array3<seq<int>>
    /** decoded_buffer_[slot][symbol][ue] */
    const decodedBuffer: array3<seq<int>>

    ghost predicate Valid()
      reads this
    {
      && csiBuffer.Length0 == FrameWnd && csiBuffer.Length1 == MaxUEs
      && ulBeamMatrix.Length0 == FrameWnd && ulBeamMatrix.Length1 == MaxDataSCs
      && dlBeamMatrix.Length0 == FrameWnd && dlBeamMatrix.Length1 == MaxDataSCs
      && demodBuffer.Length0 == FrameWnd && demodBuffer.Length1 == MaxSymbols && demodBuffer.Length2 == MaxUEs
      && decodedBuffer.Length0 == FrameWnd && decodedBuffer.Length1 == MaxSymbols && decodedBuffer.Length2 == MaxUEs
      // every table is an allocation of its own
      && csiBuffer != ulBeamMatrix && csiBuffer != dlBeamMatrix && ulBeamMatrix != dlBeamMatrix
      && demodBuffer != decodedBuffer
    }

    constructor ()
      ensures Valid()
      ensures fresh(csiBuffer) && fresh(ulBeamMatrix) && fresh(dlBeamMatrix)
      ensures fresh(demodBuffer) && fresh(decodedBuffer)
    {
      csiBuffer := new seq<Complex>[FrameWnd, MaxUEs]((f, u) => []);
      ulBeamMatrix := new seq<Complex>[FrameWnd, MaxDataSCs]((f, sc) => []);
      dlBeamMatrix := new seq<Complex>[FrameWnd, MaxDataSCs]((f, sc) => []);
      demodBuffer := new seq<int>[FrameWnd, MaxSymbols, MaxUEs]((f, s, u) => []);
      decodedBuffer := new seq<int>[FrameWnd, MaxSymbols, MaxUEs]((f, s, u) => []);
    }

    /** GetCsi: a frame window of per-UE channel estimates. */
    function GetCsi(): (g: array2<seq<Complex>>)
      reads this
      requires Valid()
      ensures g.Length0 == FrameWnd && g.Length1 == MaxUEs
      ensures g == csiBuffer && g != ulBeamMatrix && g != dlBeamMatrix
    {
      csiBuffer
    }

    /** GetUlBeamMatrix: a frame window of per-subcarrier uplink beam matrices. */
    function GetUlBeamMatrix(): (g: array2<seq<Complex>>)
      reads this
      requires Valid()
      ensures g.Length0 == FrameWnd && g.Length1 == MaxDataSCs
      ensures g == ulBeamMatrix && g != dlBeamMatrix && g != csiBuffer
    {
      ulBeamMatrix
    }

    /** GetDlBeamMatrix: a frame window of per-subcarrier downlink beam matrices. */
    function GetDlBeamMatrix(): (g: array2<seq<Complex>>)
      reads this
      requires Valid()
      ensures g.Length0 == FrameWnd && g.Length1 == MaxDataSCs
      ensures g == dlBeamMatrix && g != ulBeamMatrix && g != csiBuffer
    {
      dlBeamMatrix
    }

    /** GetDemod: a frame window of per-symbol, per-UE demodulated bits. */
    function GetDemod(): (g: array3<seq<int>>)
      reads this
      requires Valid()
      ensures g.Length0 == FrameWnd && g.Length1 == MaxSymbols && g.Length2 == MaxUEs
      ensures g == demodBuffer && g != decodedBuffer
    {
      demodBuffer
    }

    /** GetDecod: a frame window of per-symbol, per-UE decoded bits. */
    function GetDecod(): (g: array3<seq<int>>)
      reads this
      requires Valid()
      ensures g.Length0 == FrameWnd && g.Length1 == MaxSymbols && g.Length2 == MaxUEs
      ensures g == decodedBuffer && g != demodBuffer
    {
      decodedBuffer
    }
  }
}
