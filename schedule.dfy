/** The event trace of `train`'s epoch and batch loops, as functions of the run's parameters. */
module Schedule {

  /** One observable step of `train`, in program order. */
  datatype Event =
    | Batch(epoch: int, batchId: nat)                                 // forward, CTC loss, backward, optimizer step
    | Log(epoch: int, batchId: nat, trainStep: nat, remaining: int)   // progress line and `Train loss` scalar
    | MidSave(epoch: int, batchId: nat)                               // out-of-cycle `save_model`
    | Evaluate(epoch: int, testStep: nat)                             // `__test` and the `Test cer` scalar
    | EndSave(epoch: int)                                             // end-of-epoch `save_model`
    | SchedulerStep(epoch: int)                                       // `scheduler.step()`
    | EvaluationFailed(epoch: int)                                    // `__test` raised: the run stops

  /** What the loops depend on: the resumed epoch, `num_epoch`, `len(train_loader)` and `local_rank`. */
  datatype Plan = Plan(lastEpoch: nat, numEpoch: int, batches: nat, rank: nat)

  /** Logs in the batch ids `0..b-1`: one for each multiple of 100 below `b`. */
  function LogsBefore(b: nat): nat
  {
    if b == 0 then 0 else LogsBefore(b - 1) + (if (b - 1) % 100 == 0 then 1 else 0)
  }

  /** The multiples of 100 below `b` number `ceil(b / 100)`. */
  lemma {:induction false} LogsBeforeClosedForm(b: nat)
    ensures LogsBefore(b) == (b + 99) / 100
  {
    if b > 0 {
      LogsBeforeClosedForm(b - 1);
    }
  }

  /** Out-of-cycle saves in the batch ids `0..b-1`: the non-zero multiples of 10000 below `b`. */
  function MidSavesBefore(b: nat): nat
  {
    if b == 0 then 0 else (b - 1) / 10000
  }

  /** Logs in `epochs` complete epochs of `batches` batches each. */
  function LogsIn(epochs: nat, batches: nat): nat
  {
    epochs * LogsBefore(batches)
  }

  /** `train_step` when batch `b` of epoch label `e` starts: rank 0 counts every log, other ranks never log. */
  function TrainStepAt(p: Plan, e: int, b: nat): (s: nat)
    requires e > p.lastEpoch
    ensures p.rank != 0 ==> s == 0
  {
    if p.rank == 0 then LogsIn(e - p.lastEpoch - 1, p.batches) + LogsBefore(b) else 0
  }

  /** The ETA's batch count, `sum_batch - (epoch - 1) * len(train_loader) - batch_id` with
      `sum_batch = len(train_loader) * num_epoch`: the batches of the epochs after `e` and those of
      epoch `e` from `b` on. */
  function Remaining(p: Plan, e: int, b: nat): (r: int)
    ensures r == (p.numEpoch - e) * p.batches + (p.batches - b)
  {
    p.batches * p.numEpoch - (e - 1) * p.batches - b
  }

  /** The events of batch `b` of epoch label `e`. */
  function BatchEvents(p: Plan, e: int, b: nat): (t: seq<Event>)
    requires e > p.lastEpoch
    ensures |t| >= 1 && t[0] == Batch(e, b)
  {
    [Batch(e, b)]
    + (if b % 100 == 0 && p.rank == 0 then [Log(e, b, TrainStepAt(p, e, b), Remaining(p, e, b))] else [])
    + (if b % 10000 == 0 && b != 0 && p.rank == 0 then [MidSave(e, b)] else [])
  }

  /** The events of batches `0..b-1` of epoch label `e`. */
  function BatchesTrace(p: Plan, e: int, b: nat): (t: seq<Event>)
    requires e > p.lastEpoch
    ensures b == 0 ==> t == []
  {
    if b == 0 then [] else BatchesTrace(p, e, b - 1) + BatchEvents(p, e, b - 1)
  }

  /** The events after the last batch of epoch label `e`: evaluation and save on rank 0, then the scheduler. */
  function EpochEnd(p: Plan, e: int): (t: seq<Event>)
    requires e > p.lastEpoch
    ensures t != [] && t[|t| - 1] == SchedulerStep(e)
  {
    (if p.rank == 0 then [Evaluate(e, e - p.lastEpoch - 1), EndSave(e)] else []) + [SchedulerStep(e)]
  }

  /** The events of the whole epoch labelled `e`: its batches, then on rank 0 an evaluation and a save,
      and last the scheduler step. */
  function EpochTrace(p: Plan, e: int): (t: seq<Event>)
    requires e > p.lastEpoch
    ensures t != [] && t[|t| - 1] == SchedulerStep(e)
  {
    BatchesTrace(p, e, p.batches) + EpochEnd(p, e)
  }

  /** Batches `0..b-1` of an epoch give one step each and, on rank 0 only, one log per multiple of 100
      and one out-of-cycle save per non-zero multiple of 10000 below `b`; the whole epoch adds an
      evaluation and a save on rank 0, and a scheduler step. */
  lemma {:induction false} TraceLengths(p: Plan, e: int, b: nat)
    requires e > p.lastEpoch
    ensures |BatchesTrace(p, e, b)| == b + (if p.rank == 0 then LogsBefore(b) + MidSavesBefore(b) else 0)
    ensures |EpochTrace(p, e)| == p.batches + (if p.rank == 0 then LogsBefore(p.batches) + MidSavesBefore(p.batches) + 3 else 1)
  {
    BatchesLength(p, e, b);
    BatchesLength(p, e, p.batches);
  }

  lemma {:induction false} BatchesLength(p: Plan, e: int, b: nat)
    requires e > p.lastEpoch
    ensures |BatchesTrace(p, e, b)| == b + (if p.rank == 0 then LogsBefore(b) + MidSavesBefore(b) else 0)
  {
    if b > 0 {
      BatchesLength(p, e, b - 1);
      MidSavesBeforeStep(b);
    }
  }

  /** The events of the epochs labelled `lastEpoch + 1 .. upto`. */
  function EpochsTrace(p: Plan, upto: int): (t: seq<Event>)
    ensures upto <= p.lastEpoch <==> t == []
    decreases upto - p.lastEpoch
  {
    if upto <= p.lastEpoch then [] else EpochsTrace(p, upto - 1) + EpochTrace(p, upto)
  }

  /** The whole run. When the held-out set cannot be evaluated, rank 0 raises at the first evaluation. */
  function RunTrace(p: Plan, testUsable: bool): (t: seq<Event>)
    ensures p.numEpoch <= p.lastEpoch <==> t == []
    ensures p.rank == 0 && !testUsable && p.lastEpoch < p.numEpoch ==> t[|t| - 1] == EvaluationFailed(p.lastEpoch + 1)
    ensures (p.rank != 0 || testUsable) && p.lastEpoch < p.numEpoch ==> t[|t| - 1] == SchedulerStep(p.numEpoch)
  {
    if p.rank == 0 && !testUsable && p.lastEpoch < p.numEpoch then
      BatchesTrace(p, p.lastEpoch + 1, p.batches) + [EvaluationFailed(p.lastEpoch + 1)]
    else EpochsTrace(p, p.numEpoch)
  }

  // ---- Projections of a trace ----

  /** Which field of which kind of event a projection keeps. */
  datatype Field = SchedulerEpoch | LogStep | LogId | LogRemaining | TestStep | MidSaveId | EndSaveEpoch | BatchId

  /** The value `ev` contributes to the projection on `k`: one number, or none when `ev` is of another kind. */
  function Pick(ev: Event, k: Field): seq<int>
  {
    match k
    case SchedulerEpoch => if ev.SchedulerStep? then [ev.epoch] else []
    case LogStep => if ev.Log? then [ev.trainStep] else []
    case LogId => if ev.Log? then [ev.batchId] else []
    case LogRemaining => if ev.Log? then [ev.remaining] else []
    case TestStep => if ev.Evaluate? then [ev.testStep] else []
    case MidSaveId => if ev.MidSave? then [ev.batchId] else []
    case EndSaveEpoch => if ev.EndSave? then [ev.epoch] else []
    case BatchId => if ev.Batch? then [ev.batchId] else []
  }

  /** The values the events of `t` contribute to the projection on `k`, in order. */
  function Collect(t: seq<Event>, k: Field): seq<int>
    decreases |t|
  {
    if t == [] then [] else Pick(t[0], k) + Collect(t[1..], k)
  }

  lemma {:induction false} CollectConcat(a: seq<Event>, b: seq<Event>, k: Field)
    ensures Collect(a + b, k) == Collect(a, k) + Collect(b, k)
    decreases |a|
  {
    if a == [] {
      assert a + b == b;
    } else {
      CollectConcat(a[1..], b, k);
      CollectCons(a[0], a[1..] + b, k);
      assert a + b == [a[0]] + (a[1..] + b);
      CollectCons(a[0], a[1..], k);
      assert a == [a[0]] + a[1..];
      var h, x, y := Pick(a[0], k), Collect(a[1..], k), Collect(b, k);
      assert h + (x + y) == (h + x) + y;
    }
  }

  lemma CollectCons(ev: Event, t: seq<Event>, k: Field)
    ensures Collect([ev] + t, k) == Pick(ev, k) + Collect(t, k)
  {
    assert ([ev] + t)[1..] == t;
  }

  /** The integers `lo, lo + 1, …` , `count` of them. */
  function Upto(lo: int, count: nat): (r: seq<int>)
    ensures |r| == count
  {
    if count == 0 then [] else Upto(lo, count - 1) + [lo + count - 1]
  }

  // ---- Projections computed from the plan ----

  /** What batch `b` of epoch `e` contributes to the projection on `k`. */
  function BatchPick(p: Plan, e: int, b: nat, k: Field): seq<int>
    requires e > p.lastEpoch
  {
    Pick(Batch(e, b), k)
    + (if b % 100 == 0 && p.rank == 0 then Pick(Log(e, b, TrainStepAt(p, e, b), Remaining(p, e, b)), k) else [])
    + (if b % 10000 == 0 && b != 0 && p.rank == 0 then Pick(MidSave(e, b), k) else [])
  }

  /** What the end of epoch `e` contributes to the projection on `k`. */
  function EndPick(p: Plan, e: int, k: Field): seq<int>
    requires e > p.lastEpoch
  {
    (if p.rank == 0 then Pick(Evaluate(e, e - p.lastEpoch - 1), k) + Pick(EndSave(e), k) else [])
    + Pick(SchedulerStep(e), k)
  }

  /** The projection on `k` of batches `0..b-1` of epoch `e`, batch by batch. */
  function BatchesProj(p: Plan, e: int, b: nat, k: Field): seq<int>
    requires e > p.lastEpoch
  {
    if b == 0 then [] else BatchesProj(p, e, b - 1, k) + BatchPick(p, e, b - 1, k)
  }

  /** The projection on `k` of the epochs `lastEpoch + 1 .. upto`, epoch by epoch. */
  function EpochsProj(p: Plan, upto: int, k: Field): seq<int>
    decreases upto - p.lastEpoch
  {
    if upto <= p.lastEpoch then [] else EpochsProj(p, upto - 1, k) + BatchesProj(p, upto, p.batches, k) + EndPick(p, upto, k)
  }

  lemma CollectSingle(ev: Event, k: Field)
    ensures Collect([ev], k) == Pick(ev, k)
  {
    assert [ev][1..] == [];
  }

  lemma BatchEventsCollect(p: Plan, e: int, b: nat, k: Field)
    requires e > p.lastEpoch
    ensures Collect(BatchEvents(p, e, b), k) == BatchPick(p, e, b, k)
  {
    var bt: seq<Event> := [Batch(e, b)];
    var lg: seq<Event> := if b % 100 == 0 && p.rank == 0 then [Log(e, b, TrainStepAt(p, e, b), Remaining(p, e, b))] else [];
    var ms: seq<Event> := if b % 10000 == 0 && b != 0 && p.rank == 0 then [MidSave(e, b)] else [];
    assert BatchEvents(p, e, b) == bt + lg + ms;
    CollectConcat(bt + lg, ms, k);
    CollectConcat(bt, lg, k);
    CollectSingle(Batch(e, b), k);
    if lg != [] { CollectSingle(lg[0], k); }
    if ms != [] { CollectSingle(ms[0], k); }
  }

  lemma EndCollect(p: Plan, e: int, k: Field)
    requires e > p.lastEpoch
    ensures Collect(EpochEnd(p, e), k) == EndPick(p, e, k)
  {
    var ev, sv, st := Evaluate(e, e - p.lastEpoch - 1), EndSave(e), SchedulerStep(e);
    CollectSingle(ev, k);
    CollectSingle(sv, k);
    CollectSingle(st, k);
    if p.rank == 0 {
      assert EpochEnd(p, e) == [ev, sv] + [st];
      assert [ev, sv] == [ev] + [sv];
      CollectConcat([ev], [sv], k);
      CollectConcat([ev, sv], [st], k);
    } else {
      assert EpochEnd(p, e) == [st];
    }
  }

  /** Projecting the batches' trace is computing the projection batch by batch. */
  lemma {:induction false} BatchesProjection(p: Plan, e: int, b: nat, k: Field)
    requires e > p.lastEpoch
    ensures Collect(BatchesTrace(p, e, b), k) == BatchesProj(p, e, b, k)
  {
    if b > 0 {
      assert Collect(BatchesTrace(p, e, b - 1), k) == BatchesProj(p, e, b - 1, k) by {
        BatchesProjection(p, e, b - 1, k);
      }
      assert Collect(BatchEvents(p, e, b - 1), k) == BatchPick(p, e, b - 1, k) by {
        BatchEventsCollect(p, e, b - 1, k);
      }
      CollectConcat(BatchesTrace(p, e, b - 1), BatchEvents(p, e, b - 1), k);
    }
  }

  /** Projecting the run's trace is computing the projection epoch by epoch. */
  lemma {:induction false} EpochsProjection(p: Plan, upto: int, k: Field)
    ensures Collect(EpochsTrace(p, upto), k) == EpochsProj(p, upto, k)
    decreases upto - p.lastEpoch
  {
    if upto > p.lastEpoch {
      var before, batches, end := EpochsTrace(p, upto - 1), BatchesTrace(p, upto, p.batches), EpochEnd(p, upto);
      assert Collect(before, k) == EpochsProj(p, upto - 1, k) by {
        EpochsProjection(p, upto - 1, k);
      }
      assert Collect(batches, k) == BatchesProj(p, upto, p.batches, k) by {
        BatchesProjection(p, upto, p.batches, k);
      }
      assert Collect(end, k) == EndPick(p, upto, k) by {
        EndCollect(p, upto, k);
      }
      EpochsTraceSplit(p, upto);
      CollectConcat3(before, batches, end, k);
    }
  }

  lemma EpochsTraceSplit(p: Plan, upto: int)
    requires upto > p.lastEpoch
    ensures EpochsTrace(p, upto) == EpochsTrace(p, upto - 1) + (BatchesTrace(p, upto, p.batches) + EpochEnd(p, upto))
  {
  }

  lemma CollectConcat3(a: seq<Event>, b: seq<Event>, c: seq<Event>, k: Field)
    ensures Collect(a + (b + c), k) == Collect(a, k) + Collect(b, k) + Collect(c, k)
  {
    CollectConcat(a, b + c, k);
    CollectConcat(b, c, k);
  }

  // ---- Properties of the projections ----

  /** Upto(lo, count) followed by the next integer. */
  lemma UptoSnoc(lo: int, count: nat)
    ensures Upto(lo, count) + [lo + count] == Upto(lo, count + 1)
  {
  }

  lemma {:induction false} UptoConcat(lo: int, a: nat, b: nat)
    ensures Upto(lo, a) + Upto(lo + a, b) == Upto(lo, a + b)
    decreases b
  {
    if b > 0 {
      UptoConcat(lo, a, b - 1);
    }
  }

  lemma LogsBeforeStep(b: nat)
    requires b > 0
    ensures LogsBefore(b) == LogsBefore(b - 1) + (if (b - 1) % 100 == 0 then 1 else 0)
  {
  }

  lemma MidSavesBeforeStep(b: nat)
    requires b > 0
    ensures MidSavesBefore(b) == MidSavesBefore(b - 1) + (if (b - 1) % 10000 == 0 && b - 1 != 0 then 1 else 0)
    ensures (b - 1) % 10000 == 0 && b - 1 != 0 ==> 10000 * MidSavesBefore(b) == b - 1
  {
  }

  /** The non-zero multiples of 10000, `count` of them, in increasing order. */
  function Multiples(count: nat): (r: seq<int>)
    ensures |r| == count
  {
    if count == 0 then [] else Multiples(count - 1) + [10000 * count]
  }

  lemma {:induction false} MultiplesAt(count: nat)
    ensures forall i :: 0 <= i < count ==> Multiples(count)[i] == 10000 * (i + 1)
  {
    if count > 0 {
      MultiplesAt(count - 1);
    }
  }

  lemma {:induction false} MultiplesMembers(count: nat)
    ensures forall x :: x in Multiples(count) <==> 0 < x <= 10000 * count && x % 10000 == 0
  {
    if count > 0 {
      MultiplesMembers(count - 1);
      assert forall x :: 0 < x <= 10000 * count && x % 10000 == 0 ==> x <= 10000 * (count - 1) || x == 10000 * count;
    }
  }

  /** Batches never evaluate, save at the end or step the scheduler. */
  lemma {:induction false} BatchesQuiet(p: Plan, e: int, b: nat, k: Field)
    requires e > p.lastEpoch
    requires k == SchedulerEpoch || k == TestStep || k == EndSaveEpoch
    ensures BatchesProj(p, e, b, k) == []
  {
    if b > 0 {
      BatchesQuiet(p, e, b - 1, k);
    }
  }

  lemma {:induction false} BatchIdsProj(p: Plan, e: int, b: nat)
    requires e > p.lastEpoch
    ensures BatchesProj(p, e, b, BatchId) == Upto(0, b)
  {
    if b > 0 {
      BatchIdsProj(p, e, b - 1);
    }
  }

  lemma {:induction false} LogStepsProj(p: Plan, e: int, b: nat)
    requires e > p.lastEpoch
    ensures BatchesProj(p, e, b, LogStep) == if p.rank == 0 then Upto(TrainStepAt(p, e, 0), LogsBefore(b)) else []
  {
    if b > 0 {
      LogStepsProj(p, e, b - 1);
      LogsBeforeStep(b);
      LogPick(p, e, b - 1);
      if p.rank == 0 && (b - 1) % 100 == 0 {
        UptoSnoc(TrainStepAt(p, e, 0), LogsBefore(b - 1));
      }
    }
  }

  /** The `b - 1` that logs is the `LogsBefore(b - 1)`-th multiple of 100. */
  lemma LogIdIsNext(b: nat)
    requires b > 0 && (b - 1) % 100 == 0
    ensures 100 * LogsBefore(b - 1) == b - 1
  {
    LogsBeforeClosedForm(b - 1);
  }

  /** The multiples of 100, `count` of them from 0, in increasing order. */
  function LogIds(count: nat): (r: seq<int>)
    ensures |r| == count
  {
    if count == 0 then [] else LogIds(count - 1) + [100 * (count - 1)]
  }

  lemma {:induction false} LogIdsAt(count: nat)
    ensures LogIds(count) == seq(count, i => 100 * i)
  {
    if count > 0 {
      LogIdsAt(count - 1);
      assert seq(count, i => 100 * i) == seq(count - 1, i => 100 * i) + [100 * (count - 1)];
    }
  }

  lemma {:induction false} LogIdsProj(p: Plan, e: int, b: nat)
    requires e > p.lastEpoch
    ensures BatchesProj(p, e, b, LogId) == if p.rank == 0 then LogIds(LogsBefore(b)) else []
  {
    if b > 0 {
      LogIdsProj(p, e, b - 1);
      LogsBeforeStep(b);
      LogIdPick(p, e, b - 1);
      if p.rank == 0 && (b - 1) % 100 == 0 {
        LogIdIsNext(b);
        assert LogIds(LogsBefore(b)) == LogIds(LogsBefore(b - 1)) + [b - 1];
      }
    }
  }

  lemma LogIdPick(p: Plan, e: int, b: nat)
    requires e > p.lastEpoch
    ensures BatchPick(p, e, b, LogId) == if b % 100 == 0 && p.rank == 0 then [b] else []
  {
  }

  lemma LogPick(p: Plan, e: int, b: nat)
    requires e > p.lastEpoch
    ensures BatchPick(p, e, b, LogStep) == if b % 100 == 0 && p.rank == 0 then [TrainStepAt(p, e, 0) + LogsBefore(b)] else []
  {
  }

  lemma MidSavePick(p: Plan, e: int, b: nat)
    requires e > p.lastEpoch
    ensures BatchPick(p, e, b, MidSaveId) == if b % 10000 == 0 && b != 0 && p.rank == 0 then [b] else []
  {
  }

  lemma {:induction false} MidSavesProj(p: Plan, e: int, b: nat)
    requires e > p.lastEpoch
    ensures BatchesProj(p, e, b, MidSaveId) == if p.rank == 0 then Multiples(MidSavesBefore(b)) else []
  {
    if b > 0 {
      MidSavesProj(p, e, b - 1);
      MidSavesBeforeStep(b);
      MidSavePick(p, e, b - 1);
    }
  }

  lemma {:induction false} SchedulerProj(p: Plan, upto: int)
    requires upto >= p.lastEpoch
    ensures EpochsProj(p, upto, SchedulerEpoch) == Upto(p.lastEpoch + 1, upto - p.lastEpoch)
    decreases upto - p.lastEpoch
  {
    if upto > p.lastEpoch {
      SchedulerProj(p, upto - 1);
      BatchesQuiet(p, upto, p.batches, SchedulerEpoch);
      assert EndPick(p, upto, SchedulerEpoch) == [upto];
      UptoSnoc(p.lastEpoch + 1, upto - 1 - p.lastEpoch);
    }
  }

  lemma RunLogStepsProj(p: Plan, upto: int)
    requires upto >= p.lastEpoch
    ensures EpochsProj(p, upto, LogStep) == if p.rank == 0 then Upto(0, LogsIn(upto - p.lastEpoch, p.batches)) else []
  {
    if p.rank == 0 {
      PrimaryRunLogStepsProj(p, upto);
    } else {
      SecondaryQuiet(p, upto, LogStep);
    }
  }

  /** Ranks other than 0 contribute only batch ids and scheduler steps. */
  lemma {:induction false} SecondaryQuiet(p: Plan, upto: int, k: Field)
    requires p.rank != 0 && k != BatchId && k != SchedulerEpoch
    ensures EpochsProj(p, upto, k) == []
    decreases upto - p.lastEpoch
  {
    if upto > p.lastEpoch {
      SecondaryQuiet(p, upto - 1, k);
      SecondaryBatchesQuiet(p, upto, p.batches, k);
    }
  }

  lemma {:induction false} SecondaryBatchesQuiet(p: Plan, e: int, b: nat, k: Field)
    requires e > p.lastEpoch && p.rank != 0 && k != BatchId
    ensures BatchesProj(p, e, b, k) == []
  {
    if b > 0 {
      SecondaryBatchesQuiet(p, e, b - 1, k);
    }
  }

  lemma {:induction false} PrimaryRunLogStepsProj(p: Plan, upto: int)
    requires upto >= p.lastEpoch && p.rank == 0
    ensures EpochsProj(p, upto, LogStep) == Upto(0, LogsIn(upto - p.lastEpoch, p.batches))
    decreases upto - p.lastEpoch
  {
    if upto > p.lastEpoch {
      var done := upto - p.lastEpoch - 1;
      PrimaryRunLogStepsProj(p, upto - 1);
      LogStepsProj(p, upto, p.batches);
      assert EndPick(p, upto, LogStep) == [];
      LogsInStep(done, p.batches);
      UptoConcat(0, LogsIn(done, p.batches), LogsBefore(p.batches));
    }
  }

  /** One more epoch adds one epoch's logs. */
  lemma LogsInStep(epochs: nat, batches: nat)
    ensures LogsIn(epochs + 1, batches) == LogsIn(epochs, batches) + LogsBefore(batches)
  {
  }

  /** On rank 0 every epoch contributes its index in the run to the evaluation projection. */
  lemma {:induction false} TestStepsProj(p: Plan, upto: int)
    requires upto >= p.lastEpoch && p.rank == 0
    ensures EpochsProj(p, upto, TestStep) == Upto(0, upto - p.lastEpoch)
    decreases upto - p.lastEpoch
  {
    if upto > p.lastEpoch {
      TestStepsProj(p, upto - 1);
      BatchesQuiet(p, upto, p.batches, TestStep);
      EndTestPick(p, upto);
      UptoSnoc(0, upto - 1 - p.lastEpoch);
    }
  }

  lemma EndTestPick(p: Plan, e: int)
    requires e > p.lastEpoch && p.rank == 0
    ensures EndPick(p, e, TestStep) == [e - p.lastEpoch - 1]
  {
  }

  /** On rank 0 every epoch contributes its label to the end-of-epoch save projection. */
  lemma {:induction false} EndSavesProj(p: Plan, upto: int)
    requires upto >= p.lastEpoch && p.rank == 0
    ensures EpochsProj(p, upto, EndSaveEpoch) == Upto(p.lastEpoch + 1, upto - p.lastEpoch)
    decreases upto - p.lastEpoch
  {
    if upto > p.lastEpoch {
      EndSavesProj(p, upto - 1);
      BatchesQuiet(p, upto, p.batches, EndSaveEpoch);
      UptoSnoc(p.lastEpoch + 1, upto - 1 - p.lastEpoch);
    }
  }

  lemma {:induction false} RunBatchCountProj(p: Plan, upto: int)
    requires upto >= p.lastEpoch
    ensures |EpochsProj(p, upto, BatchId)| == (upto - p.lastEpoch) * p.batches
    decreases upto - p.lastEpoch
  {
    if upto > p.lastEpoch {
      RunBatchCountProj(p, upto - 1);
      BatchIdsProj(p, upto, p.batches);
      assert (upto - 1 - p.lastEpoch) * p.batches + p.batches == (upto - p.lastEpoch) * p.batches;
    }
  }

  // ---- Properties of the schedule ----

  /** Epochs are labelled `lastEpoch + 1 .. upto` in increasing order (none when `lastEpoch >= upto`),
      and `scheduler.step()` runs once per epoch on every rank. */
  lemma SchedulerStepsPerEpoch(p: Plan, upto: int)
    ensures upto <= p.lastEpoch ==> Collect(EpochsTrace(p, upto), SchedulerEpoch) == []
    ensures upto >= p.lastEpoch ==> Collect(EpochsTrace(p, upto), SchedulerEpoch) == Upto(p.lastEpoch + 1, upto - p.lastEpoch)
  {
    EpochsProjection(p, upto, SchedulerEpoch);
    if upto >= p.lastEpoch {
      SchedulerProj(p, upto);
    }
  }

  /** Every epoch runs the batch ids `0 .. len(train_loader) - 1` in order, on every rank. */
  lemma BatchIdsInOrder(p: Plan, e: int, b: nat)
    requires e > p.lastEpoch
    ensures Collect(BatchesTrace(p, e, b), BatchId) == Upto(0, b)
  {
    BatchesProjection(p, e, b, BatchId);
    BatchIdsProj(p, e, b);
  }

  /** On rank 0 the logs of an epoch are at batch ids 0, 100, 200, … (`ceil(len / 100)` of them) and carry
      the consecutive `train_step` values that follow the previous epochs'; other ranks never log. */
  lemma BatchLogSteps(p: Plan, e: int, b: nat)
    requires e > p.lastEpoch
    ensures Collect(BatchesTrace(p, e, b), LogId)
         == if p.rank == 0 then seq(LogsBefore(b), i => 100 * i) else []
    ensures Collect(BatchesTrace(p, e, b), LogStep)
         == if p.rank == 0 then Upto(TrainStepAt(p, e, 0), LogsBefore(b)) else []
  {
    BatchesProjection(p, e, b, LogId);
    LogIdsProj(p, e, b);
    LogIdsAt(LogsBefore(b));
    BatchesProjection(p, e, b, LogStep);
    LogStepsProj(p, e, b);
  }

  /** On rank 0 the whole run logs with `train_step` = 0, 1, 2, …, `ceil(len / 100)` per epoch:
      each scalar step is used once and in increasing order. Other ranks never log. */
  lemma RunLogSteps(p: Plan, upto: int)
    requires upto >= p.lastEpoch
    ensures Collect(EpochsTrace(p, upto), LogStep)
         == if p.rank == 0 then Upto(0, LogsIn(upto - p.lastEpoch, p.batches)) else []
  {
    EpochsProjection(p, upto, LogStep);
    RunLogStepsProj(p, upto);
  }

  /** On rank 0 each epoch evaluates once, with `test_step` = 0, 1, 2, … across the run, and saves at
      its end once; other ranks do neither. */
  lemma RunTestSteps(p: Plan, upto: int)
    requires upto >= p.lastEpoch
    ensures Collect(EpochsTrace(p, upto), TestStep) == if p.rank == 0 then Upto(0, upto - p.lastEpoch) else []
    ensures Collect(EpochsTrace(p, upto), EndSaveEpoch) == if p.rank == 0 then Upto(p.lastEpoch + 1, upto - p.lastEpoch) else []
  {
    EpochsProjection(p, upto, TestStep);
    EpochsProjection(p, upto, EndSaveEpoch);
    if p.rank == 0 {
      TestStepsProj(p, upto);
      EndSavesProj(p, upto);
    } else {
      SecondaryQuiet(p, upto, TestStep);
      SecondaryQuiet(p, upto, EndSaveEpoch);
    }
  }

  /** The batch ids after which an epoch saves out of cycle are exactly the non-zero multiples of 10000
      below `len(train_loader)`, in increasing order, and only on rank 0. */
  lemma EpochMidSaves(p: Plan, e: int)
    requires e > p.lastEpoch
    ensures Collect(EpochTrace(p, e), MidSaveId) == if p.rank == 0 then Multiples(MidSavesBefore(p.batches)) else []
    ensures forall id :: id in Collect(EpochTrace(p, e), MidSaveId) <==> p.rank == 0 && 0 < id < p.batches && id % 10000 == 0
  {
    var batches, end := BatchesTrace(p, e, p.batches), EpochEnd(p, e);
    assert Collect(EpochTrace(p, e), MidSaveId) == BatchesProj(p, e, p.batches, MidSaveId) by {
      BatchesProjection(p, e, p.batches, MidSaveId);
      EndCollect(p, e, MidSaveId);
      CollectConcat(batches, end, MidSaveId);
    }
    MidSavesProj(p, e, p.batches);
    if p.rank == 0 {
      MultiplesMembers(MidSavesBefore(p.batches));
      MultiplesBelow(p.batches);
    }
  }

  lemma MultiplesBelow(b: nat)
    ensures forall x: int :: x % 10000 == 0 ==> (0 < x <= 10000 * MidSavesBefore(b) <==> 0 < x < b)
  {
    forall x: int | x % 10000 == 0 ensures 0 < x <= 10000 * MidSavesBefore(b) <==> 0 < x < b {
      var q := x / 10000;
      assert x == 10000 * q;
      if b > 0 {
        var m := (b - 1) / 10000;
        assert 10000 * m <= b - 1 < 10000 * m + 10000;
      }
    }
  }

  /** Every epoch of the run performs `len(train_loader)` batches. */
  lemma RunBatchCount(p: Plan, upto: int)
    requires upto >= p.lastEpoch
    ensures |Collect(EpochsTrace(p, upto), BatchId)| == (upto - p.lastEpoch) * p.batches
  {
    EpochsProjection(p, upto, BatchId);
    RunBatchCountProj(p, upto);
  }

  /** The ETA's count at batch `b` of epoch `e` is the number of batches the run still performs, the
      current one included: the rest of this epoch plus every batch of the epochs after it. Since
      `sum_batch` counts from epoch 1, this holds on a resumed run too, and the count is at least 1. */
  lemma RemainingIsBatchesLeft(p: Plan, e: int, b: nat)
    requires p.lastEpoch < e <= p.numEpoch && b < p.batches
    ensures Remaining(p, e, b) == (p.batches - b) + |Collect(EpochsTrace(p.(lastEpoch := e), p.numEpoch), BatchId)|
    ensures Remaining(p, e, b) >= 1
  {
    var q := p.(lastEpoch := e);
    assert |Collect(EpochsTrace(q, p.numEpoch), BatchId)| == (p.numEpoch - e) * p.batches by {
      RunBatchCount(q, p.numEpoch);
    }
  }

  /** Every ETA count an epoch's batches log is the count at some logged batch id of that epoch. */
  lemma {:induction false} BatchRemainings(p: Plan, e: int, b: nat)
    requires e > p.lastEpoch
    ensures forall v :: v in BatchesProj(p, e, b, LogRemaining) ==>
      exists id: nat :: id < b && id % 100 == 0 && v == Remaining(p, e, id)
  {
    if b > 0 {
      BatchRemainings(p, e, b - 1);
      var pick := BatchPick(p, e, b - 1, LogRemaining);
      assert pick == if (b - 1) % 100 == 0 && p.rank == 0 then [Remaining(p, e, b - 1)] else [];
      forall v | v in BatchesProj(p, e, b, LogRemaining)
        ensures exists id: nat :: id < b && id % 100 == 0 && v == Remaining(p, e, id)
      {
        if v !in BatchesProj(p, e, b - 1, LogRemaining) {
          assert v in pick && v == Remaining(p, e, b - 1);
        }
      }
    }
  }

  /** Every ETA count the epochs `lastEpoch + 1 .. upto` log is the count at a logged batch of one of them. */
  lemma {:induction false} EpochRemainings(p: Plan, upto: int)
    ensures forall v :: v in EpochsProj(p, upto, LogRemaining) ==>
      exists e: int, id: nat :: p.lastEpoch < e <= upto && id < p.batches && id % 100 == 0 && v == Remaining(p, e, id)
    decreases upto - p.lastEpoch
  {
    if upto > p.lastEpoch {
      EpochRemainings(p, upto - 1);
      BatchRemainings(p, upto, p.batches);
      assert EndPick(p, upto, LogRemaining) == [];
      forall v | v in EpochsProj(p, upto, LogRemaining)
        ensures exists e: int, id: nat :: p.lastEpoch < e <= upto && id < p.batches && id % 100 == 0 && v == Remaining(p, e, id)
      {
        if v !in EpochsProj(p, upto - 1, LogRemaining) {
          assert v in BatchesProj(p, upto, p.batches, LogRemaining);
          var id: nat :| id < p.batches && id % 100 == 0 && v == Remaining(p, upto, id);
        }
      }
    }
  }

  /** The ETA counts rank 0 logs during the epochs `lastEpoch + 1 .. upto` are each the number of
      batches left at a logged batch of one of those epochs (see `RemainingIsBatchesLeft`), so within
      the run none is below 1; other ranks log none. */
  lemma RunRemainings(p: Plan, upto: int)
    ensures p.rank != 0 ==> Collect(EpochsTrace(p, upto), LogRemaining) == []
    ensures forall v :: v in Collect(EpochsTrace(p, upto), LogRemaining) ==>
      exists e: int, id: nat :: p.lastEpoch < e <= upto && id < p.batches && id % 100 == 0 && v == Remaining(p, e, id)
    ensures upto <= p.numEpoch ==> forall v :: v in Collect(EpochsTrace(p, upto), LogRemaining) ==> v >= 1
  {
    EpochsProjection(p, upto, LogRemaining);
    EpochRemainings(p, upto);
    if p.rank != 0 {
      SecondaryQuiet(p, upto, LogRemaining);
    }
    if upto <= p.numEpoch {
      forall v | v in Collect(EpochsTrace(p, upto), LogRemaining) ensures v >= 1 {
        var e: int, id: nat :| p.lastEpoch < e <= upto && id < p.batches && id % 100 == 0 && v == Remaining(p, e, id);
        RemainingIsBatchesLeft(p, e, id);
      }
    }
  }
}
