/** `train`: the set-up before the loops (model name, resume epoch, pretrained and resumed weights)
    and the epoch and batch loops themselves, with their counters, checkpoints and event trace. */
module Training {
  import opened Failures
  import opened Checkpoints
  import opened Schedule
  import opened ResumeEpoch
  import opened Pretrained
  import Evaluation
  import Config

  /** One optimisation step on batch `batchId` of epoch `epoch`: forward pass, CTC loss, backward pass and
      `optimizer.step()`, taking the model's and the optimizer's states to their new values. */
  type StepFn = (StateDict, StateDict, int, nat) -> (StateDict, StateDict)

  /** The model and optimizer states after batches `0..b-1` of epoch `e`, starting from `s`. */
  function AfterBatches(step: StepFn, s: (StateDict, StateDict), e: int, b: nat): (StateDict, StateDict)
  {
    if b == 0 then s else var t := AfterBatches(step, s, e, b - 1); step(t.0, t.1, e, b - 1)
  }

  /** The model and optimizer states after the epochs labelled `lastEpoch + 1 .. upto`, starting from `s`. */
  function AfterEpochs(step: StepFn, s: (StateDict, StateDict), p: Plan, upto: int): (StateDict, StateDict)
    decreases upto - p.lastEpoch
  {
    if upto <= p.lastEpoch then s else AfterBatches(step, AfterEpochs(step, s, p, upto - 1), upto, p.batches)
  }

  /** Every save in `saves` is of epoch `e`. */
  ghost predicate AllOfEpoch(saves: seq<Save>, e: int)
  {
    forall i :: 0 <= i < |saves| ==> saves[i].epoch == e
  }

  /** The out-of-cycle saves of batches `0..b-1` of epoch `e` started from the states `s`: on rank 0, after
      each batch whose id is a non-zero multiple of 10000, the states that batch left. */
  function MidSaves(p: Plan, step: StepFn, s: (StateDict, StateDict), e: int, b: nat): (r: seq<Save>)
    ensures AllOfEpoch(r, e)
    ensures p.rank != 0 ==> r == []
  {
    if b == 0 then []
    else
      var t := AfterBatches(step, s, e, b);
      MidSaves(p, step, s, e, b - 1) + (if (b - 1) % 10000 == 0 && b - 1 != 0 && p.rank == 0 then [Save(e, t.0, t.1)] else [])
  }

  /** The saves of a completed epoch `e` started from `s`: its out-of-cycle saves, then on rank 0 the
      end-of-epoch save of the states its last batch left. */
  function EpochSaves(p: Plan, step: StepFn, s: (StateDict, StateDict), e: int): (r: seq<Save>)
    ensures AllOfEpoch(r, e)
    ensures p.rank != 0 ==> r == []
    ensures p.rank == 0 ==> r != [] && r[|r| - 1] == Save(e, AfterBatches(step, s, e, p.batches).0, AfterBatches(step, s, e, p.batches).1)
  {
    var t := AfterBatches(step, s, e, p.batches);
    MidSaves(p, step, s, e, p.batches) + (if p.rank == 0 then [Save(e, t.0, t.1)] else [])
  }

  /** The saves of the completed epochs `lastEpoch + 1 .. upto` of a run started from `s0`, in order. */
  function RunSaves(p: Plan, step: StepFn, s0: (StateDict, StateDict), upto: int): (r: seq<Save>)
    ensures p.rank != 0 ==> r == []
    decreases upto - p.lastEpoch
  {
    if upto <= p.lastEpoch then [] else RunSaves(p, step, s0, upto - 1) + EpochSaves(p, step, AfterEpochs(step, s0, p, upto - 1), upto)
  }

  /** One batch `b` of epoch `e`: step; on rank 0 log (and count `train_step`) when `b` is a multiple of
      100, and save out of cycle when it is a non-zero multiple of 10000. */
  method TrainBatch(p: Plan, e: int, b: nat, step: StepFn, model0: StateDict, opt0: StateDict, trainStep0: nat,
                    store: CheckpointStore)
    returns (batch: seq<Event>, trainStep: nat, model: StateDict, opt: StateDict, ghost saves: seq<Save>)
    requires e > p.lastEpoch && trainStep0 == TrainStepAt(p, e, b)
    modifies store
    ensures batch == BatchEvents(p, e, b)
    ensures trainStep == TrainStepAt(p, e, b + 1)
    ensures (model, opt) == step(model0, opt0, e, b)
    ensures store.dirs == ApplySaves(old(store.dirs), saves)
    ensures saves == if b % 10000 == 0 && b != 0 && p.rank == 0 then [Save(e, model, opt)] else []
  {
    var next := step(model0, opt0, e, b);
    model, opt, trainStep, saves := next.0, next.1, trainStep0, [];
    batch := [Batch(e, b)];
    if b % 100 == 0 && p.rank == 0 {
      batch := batch + [Log(e, b, trainStep, p.batches * p.numEpoch - (e - 1) * p.batches - b)];
      trainStep := trainStep + 1;
    }
    if b % 10000 == 0 && b != 0 && p.rank == 0 {
      store.SaveModel(e, model, opt);
      saves := [Save(e, model, opt)];
      batch := batch + [MidSave(e, b)];
    }
    LogsBeforeStep(b + 1);
  }

  /** The batch loop of epoch `e`. */
  method TrainBatches(p: Plan, e: int, step: StepFn, model0: StateDict, opt0: StateDict, trainStep0: nat,
                      store: CheckpointStore)
    returns (events: seq<Event>, trainStep: nat, model: StateDict, opt: StateDict, ghost saves: seq<Save>)
    requires e > p.lastEpoch && trainStep0 == TrainStepAt(p, e, 0)
    modifies store
    ensures events == BatchesTrace(p, e, p.batches)
    ensures trainStep == TrainStepAt(p, e, p.batches)
    ensures (model, opt) == AfterBatches(step, (model0, opt0), e, p.batches)
    ensures store.dirs == ApplySaves(old(store.dirs), saves)
    ensures saves == MidSaves(p, step, (model0, opt0), e, p.batches)
  {
    events, trainStep, model, opt, saves := [], trainStep0, model0, opt0, [];
    var b: nat := 0;
    while b < p.batches
      invariant b <= p.batches
      invariant events == BatchesTrace(p, e, b)
      invariant trainStep == TrainStepAt(p, e, b)
      invariant (model, opt) == AfterBatches(step, (model0, opt0), e, b)
      invariant store.dirs == ApplySaves(old(store.dirs), saves)
      invariant saves == MidSaves(p, step, (model0, opt0), e, b)
    {
      var batch; ghost var more;
      batch, trainStep, model, opt, more := TrainBatch(p, e, b, step, model, opt, trainStep, store);
      ApplySavesConcat(old(store.dirs), saves, more);
      saves := saves + more;
      events := events + batch;
      b := b + 1;
    }
  }

  /** One epoch `e` of `train`: the batch loop; then on rank 0 `__test`, the `Test cer` scalar at
      `test_step` and the end-of-epoch save; then `scheduler.step()` on every rank. An evaluation that
      raises ends the epoch before its save and its scheduler step. */
  method TrainEpoch(p: Plan, test: seq<Evaluation.TestBatch>, e: int, step: StepFn, model0: StateDict, opt0: StateDict,
                    trainStep0: nat, testStep0: nat, schedulerEpoch0: int, store: CheckpointStore)
    returns (events: seq<Event>, outcome: Result<()>, trainStep: nat, testStep: nat, schedulerEpoch: int,
             model: StateDict, opt: StateDict, ghost saves: seq<Save>)
    requires e > p.lastEpoch && trainStep0 == TrainStepAt(p, e, 0)
    requires testStep0 == if p.rank == 0 then e - p.lastEpoch - 1 else 0
    modifies store
    ensures outcome.Err? <==> p.rank == 0 && !Evaluation.Usable(test)
    ensures outcome.Err? ==> outcome.error == DivisionByZero && events == BatchesTrace(p, e, p.batches)
    ensures outcome.Ok? ==> (&& events == EpochTrace(p, e)
                             && testStep == (if p.rank == 0 then e - p.lastEpoch else 0)
                             && schedulerEpoch == schedulerEpoch0 + 1)
    ensures trainStep == TrainStepAt(p, e, p.batches)
    ensures (model, opt) == AfterBatches(step, (model0, opt0), e, p.batches)
    ensures store.dirs == ApplySaves(old(store.dirs), saves)
    ensures outcome.Ok? ==> saves == EpochSaves(p, step, (model0, opt0), e)
    ensures outcome.Err? ==> saves == MidSaves(p, step, (model0, opt0), e, p.batches)
  {
    testStep, schedulerEpoch, outcome := testStep0, schedulerEpoch0, Ok(());
    events, trainStep, model, opt, saves := TrainBatches(p, e, step, model0, opt0, trainStep0, store);
    var end: seq<Event> := [SchedulerStep(e)];
    if p.rank == 0 {
      var r, _ := Evaluation.Test(test);
      if r.Err? {
        return events, Err(r.error), trainStep, testStep, schedulerEpoch, model, opt, saves;
      }
      EndOfEpoch(p, e, testStep);
      end := [Evaluate(e, testStep), EndSave(e)] + end;
      testStep := testStep + 1;
      store.SaveModel(e, model, opt);
      ApplySavesSnoc(old(store.dirs), saves, Save(e, model, opt));
      saves := saves + [Save(e, model, opt)];
    } else {
      EndOfEpoch(p, e, testStep);
    }
    schedulerEpoch := schedulerEpoch + 1;
    events := events + end;
  }

  /** The events that close epoch `e` on each rank, given the `test_step` its evaluation logs at. */
  lemma {:induction false} EndOfEpoch(p: Plan, e: int, testStep: nat)
    requires e > p.lastEpoch && testStep == (if p.rank == 0 then e - p.lastEpoch - 1 else 0)
    ensures p.rank == 0 ==> EpochEnd(p, e) == [Evaluate(e, testStep), EndSave(e)] + [SchedulerStep(e)]
    ensures p.rank != 0 ==> EpochEnd(p, e) == [SchedulerStep(e)]
    ensures BatchesTrace(p, e, p.batches) + EpochEnd(p, e) == EpochTrace(p, e)
  {
  }

  /** The epoch label the loop stops after: `num_epoch`, or the resumed epoch when there is nothing left. */
  function FinalEpoch(p: Plan): (e: int)
    ensures e >= p.lastEpoch && e >= p.numEpoch
  {
    if p.numEpoch > p.lastEpoch then p.numEpoch else p.lastEpoch
  }

  /** What holds of a rank's run once the epochs labelled `lastEpoch + 1 .. epoch` are done: the trace so far,
      the three counters, the model and optimizer states, and the saves, applied to the directories `dirs0`
      the run started with, that give the directories `dirs`. */
  ghost predicate Progressed(p: Plan, test: seq<Evaluation.TestBatch>, step: StepFn, s0: (StateDict, StateDict),
                             dirs0: map<int, CheckpointDir>, epoch: int, trace: seq<Event>, trainStep: nat,
                             testStep: nat, schedulerEpoch: int, s: (StateDict, StateDict),
                             dirs: map<int, CheckpointDir>, saves: seq<Save>)
  {
    && p.lastEpoch <= epoch && (epoch <= p.numEpoch || epoch == p.lastEpoch)
    && trace == EpochsTrace(p, epoch)
    && Counted(p, epoch, trainStep, testStep, schedulerEpoch)
    && s == AfterEpochs(step, s0, p, epoch)
    && Saved(p, step, s0, epoch, s, dirs0, dirs, saves)
    && (p.rank == 0 && epoch > p.lastEpoch ==> Evaluation.Usable(test))
  }

  /** The counters once the epochs `lastEpoch + 1 .. epoch` are done: rank 0 has logged every batch id
      divisible by 100 and evaluated once per epoch; the scheduler has stepped once per epoch. */
  ghost predicate Counted(p: Plan, epoch: int, trainStep: nat, testStep: nat, schedulerEpoch: int)
    requires p.lastEpoch <= epoch
  {
    && trainStep == (if p.rank == 0 then LogsIn(epoch - p.lastEpoch, p.batches) else 0)
    && testStep == (if p.rank == 0 then epoch - p.lastEpoch else 0)
    && schedulerEpoch == epoch - 1
  }

  /** The saves once the epochs `lastEpoch + 1 .. epoch` are done, and the directories they leave. */
  ghost predicate Saved(p: Plan, step: StepFn, s0: (StateDict, StateDict), epoch: int, s: (StateDict, StateDict),
                        dirs0: map<int, CheckpointDir>, dirs: map<int, CheckpointDir>, saves: seq<Save>)
  {
    && saves == RunSaves(p, step, s0, epoch)
    && dirs == ApplySaves(dirs0, saves)
  }

  /** Before the first epoch the run has done nothing. */
  lemma {:induction false} ProgressedStart(p: Plan, test: seq<Evaluation.TestBatch>, step: StepFn, s0: (StateDict, StateDict),
                        dirs0: map<int, CheckpointDir>)
    ensures Progressed(p, test, step, s0, dirs0, p.lastEpoch, [], 0, 0, p.lastEpoch - 1, s0, dirs0, [])
  {
  }

  /** Once the loop stops, it stopped after the last epoch label, or never started when there was none. */
  lemma {:induction false} ProgressedEnd(p: Plan, test: seq<Evaluation.TestBatch>, step: StepFn, s0: (StateDict, StateDict),
                      dirs0: map<int, CheckpointDir>, epoch: int, trace: seq<Event>, trainStep: nat,
                      testStep: nat, schedulerEpoch: int, s: (StateDict, StateDict),
                      dirs: map<int, CheckpointDir>, saves: seq<Save>)
    requires Progressed(p, test, step, s0, dirs0, epoch, trace, trainStep, testStep, schedulerEpoch, s, dirs, saves)
    requires epoch >= p.numEpoch
    ensures epoch == FinalEpoch(p)
  {
  }

  /** A completed epoch `epoch + 1` carries `Progressed` from `epoch` to `epoch + 1`. */
  lemma {:induction false} ProgressedStep(p: Plan, test: seq<Evaluation.TestBatch>, step: StepFn, s0: (StateDict, StateDict),
                       dirs0: map<int, CheckpointDir>, epoch: int, trace: seq<Event>, trainStep: nat,
                       testStep: nat, schedulerEpoch: int, s: (StateDict, StateDict),
                       dirs: map<int, CheckpointDir>, saves: seq<Save>,
                       events: seq<Event>, trainStep': nat, testStep': nat, schedulerEpoch': int,
                       s': (StateDict, StateDict), dirs': map<int, CheckpointDir>, more: seq<Save>)
    requires Progressed(p, test, step, s0, dirs0, epoch, trace, trainStep, testStep, schedulerEpoch, s, dirs, saves)
    requires epoch < p.numEpoch
    requires p.rank == 0 ==> Evaluation.Usable(test)
    requires events == EpochTrace(p, epoch + 1)
    requires trainStep' == TrainStepAt(p, epoch + 1, p.batches)
    requires testStep' == (if p.rank == 0 then epoch + 1 - p.lastEpoch else 0)
    requires schedulerEpoch' == schedulerEpoch + 1
    requires s' == AfterBatches(step, s, epoch + 1, p.batches)
    requires dirs' == ApplySaves(dirs, more)
    requires more == EpochSaves(p, step, s, epoch + 1)
    ensures Progressed(p, test, step, s0, dirs0, epoch + 1, trace + events, trainStep', testStep', schedulerEpoch',
                       s', dirs', saves + more)
  {
    CountedStep(p, epoch, trainStep, testStep, schedulerEpoch, trainStep', testStep', schedulerEpoch');
    SavedStep(p, step, s0, epoch, s, dirs0, dirs, saves, s', dirs', more);
    AfterEpochsStep(step, s0, p, epoch + 1);
  }

  lemma {:induction false} CountedStep(p: Plan, epoch: int, trainStep: nat, testStep: nat, schedulerEpoch: int,
                    trainStep': nat, testStep': nat, schedulerEpoch': int)
    requires p.lastEpoch <= epoch && Counted(p, epoch, trainStep, testStep, schedulerEpoch)
    requires trainStep' == TrainStepAt(p, epoch + 1, p.batches)
    requires testStep' == (if p.rank == 0 then epoch + 1 - p.lastEpoch else 0)
    requires schedulerEpoch' == schedulerEpoch + 1
    ensures Counted(p, epoch + 1, trainStep', testStep', schedulerEpoch')
  {
    LogsInStep(epoch - p.lastEpoch, p.batches);
  }

  lemma {:induction false} SavedStep(p: Plan, step: StepFn, s0: (StateDict, StateDict), epoch: int, s: (StateDict, StateDict),
                  dirs0: map<int, CheckpointDir>, dirs: map<int, CheckpointDir>, saves: seq<Save>,
                  s': (StateDict, StateDict), dirs': map<int, CheckpointDir>, more: seq<Save>)
    requires p.lastEpoch <= epoch && s == AfterEpochs(step, s0, p, epoch) && Saved(p, step, s0, epoch, s, dirs0, dirs, saves)
    requires s' == AfterBatches(step, s, epoch + 1, p.batches)
    requires dirs' == ApplySaves(dirs, more)
    requires more == EpochSaves(p, step, s, epoch + 1)
    ensures Saved(p, step, s0, epoch + 1, s', dirs0, dirs', saves + more)
  {
    ApplySavesConcat(dirs0, saves, more);
  }

  /** On rank 0 with an unusable held-out set, the run can only have reached its first evaluation. */
  lemma {:induction false} FailsAtFirstEvaluation(p: Plan, test: seq<Evaluation.TestBatch>, step: StepFn, s0: (StateDict, StateDict),
                               dirs0: map<int, CheckpointDir>, epoch: int, trace: seq<Event>, trainStep: nat,
                               testStep: nat, schedulerEpoch: int, s: (StateDict, StateDict),
                               dirs: map<int, CheckpointDir>, saves: seq<Save>)
    requires Progressed(p, test, step, s0, dirs0, epoch, trace, trainStep, testStep, schedulerEpoch, s, dirs, saves)
    requires p.rank == 0 && !Evaluation.Usable(test)
    ensures epoch == p.lastEpoch && trace == [] && trainStep == 0 && testStep == 0 && s == s0 && saves == [] && dirs == dirs0
  {
  }

  /** What a rank-0 run whose first evaluation raised leaves: the first epoch's batches and the failure in
      the trace, the states after those batches, and only that epoch's out-of-cycle saves. */
  ghost predicate FailedRun(p: Plan, step: StepFn, s0: (StateDict, StateDict), dirs0: map<int, CheckpointDir>,
                            trace: seq<Event>, s: (StateDict, StateDict), dirs: map<int, CheckpointDir>, saves: seq<Save>)
  {
    && trace == BatchesTrace(p, p.lastEpoch + 1, p.batches) + [EvaluationFailed(p.lastEpoch + 1)]
    && s == AfterBatches(step, s0, p.lastEpoch + 1, p.batches)
    && saves == MidSaves(p, step, s0, p.lastEpoch + 1, p.batches)
    && dirs == ApplySaves(dirs0, saves)
  }

  /** An evaluation that raises can only be the run's first, so the run stops as `FailedRun` says. */
  lemma {:induction false} FirstEvaluationFails(p: Plan, test: seq<Evaluation.TestBatch>, step: StepFn, s0: (StateDict, StateDict),
                             dirs0: map<int, CheckpointDir>, epoch: int, trace: seq<Event>, trainStep: nat,
                             testStep: nat, schedulerEpoch: int, s: (StateDict, StateDict),
                             dirs: map<int, CheckpointDir>, saves: seq<Save>,
                             events: seq<Event>, s': (StateDict, StateDict), dirs': map<int, CheckpointDir>, more: seq<Save>)
    requires Progressed(p, test, step, s0, dirs0, epoch, trace, trainStep, testStep, schedulerEpoch, s, dirs, saves)
    requires p.rank == 0 && !Evaluation.Usable(test)
    requires events == BatchesTrace(p, epoch + 1, p.batches)
    requires s' == AfterBatches(step, s, epoch + 1, p.batches)
    requires dirs' == ApplySaves(dirs, more)
    requires more == MidSaves(p, step, s, epoch + 1, p.batches)
    ensures epoch == p.lastEpoch
    ensures FailedRun(p, step, s0, dirs0, events + [EvaluationFailed(epoch + 1)], s', dirs', more)
  {
  }

  /** One pass of the epoch loop: epoch `epoch + 1`, taking the run from `Progressed` at `epoch` to
      `Progressed` at `epoch + 1`, or to `FailedRun` when its evaluation raises. */
  method NextEpoch(p: Plan, test: seq<Evaluation.TestBatch>, step: StepFn, model0: StateDict, opt0: StateDict,
                   ghost dirs0: map<int, CheckpointDir>, epoch: int, trace: seq<Event>, trainStep: nat, testStep: nat,
                   schedulerEpoch: int, model: StateDict, opt: StateDict, ghost saves: seq<Save>, store: CheckpointStore)
    returns (trace': seq<Event>, outcome: Result<()>, trainStep': nat, testStep': nat, schedulerEpoch': int,
             model': StateDict, opt': StateDict, ghost saves': seq<Save>)
    requires Progressed(p, test, step, (model0, opt0), dirs0, epoch, trace, trainStep, testStep, schedulerEpoch,
                        (model, opt), store.dirs, saves)
    requires epoch < p.numEpoch
    modifies store
    ensures outcome.Err? <==> p.rank == 0 && !Evaluation.Usable(test)
    ensures outcome.Err? ==> outcome.error == DivisionByZero
    ensures outcome.Err? ==> FailedRun(p, step, (model0, opt0), dirs0, trace', (model', opt'), store.dirs, saves')
    ensures outcome.Ok? ==> Progressed(p, test, step, (model0, opt0), dirs0, epoch + 1, trace', trainStep', testStep',
                                       schedulerEpoch', (model', opt'), store.dirs, saves')
  {
    ghost var before := store.dirs;
    var events, m, o;
    ghost var more;
    events, outcome, trainStep', testStep', schedulerEpoch', m, o, more :=
      TrainEpoch(p, test, epoch + 1, step, model, opt, trainStep, testStep, schedulerEpoch, store);
    if outcome.Err? {
      FirstEvaluationFails(p, test, step, (model0, opt0), dirs0, epoch, trace, trainStep, testStep,
                           schedulerEpoch, (model, opt), before, saves, events, (m, o), store.dirs, more);
      return events + [EvaluationFailed(epoch + 1)], outcome, trainStep', testStep', schedulerEpoch', m, o, more;
    }
    ProgressedStep(p, test, step, (model0, opt0), dirs0, epoch, trace, trainStep, testStep, schedulerEpoch,
                   (model, opt), before, saves, events, trainStep', testStep', schedulerEpoch', (m, o), store.dirs, more);
    trace', model', opt', saves' := trace + events, m, o, saves + more;
  }

  /** The epoch loop of `train` on one rank, over the epochs labelled `lastEpoch + 1 .. numEpoch`, stated
      in terms of the epoch it stops after. An evaluation that raises ends the run. */
  method EpochLoop(p: Plan, test: seq<Evaluation.TestBatch>, step: StepFn, model0: StateDict, opt0: StateDict,
                   store: CheckpointStore)
    returns (trace: seq<Event>, outcome: Result<()>, trainStep: nat, testStep: nat, schedulerEpoch: int,
             model: StateDict, opt: StateDict, ghost saves: seq<Save>)
    modifies store
    ensures outcome.Err? <==> p.rank == 0 && !Evaluation.Usable(test) && p.lastEpoch < p.numEpoch
    ensures outcome.Err? ==> outcome.error == DivisionByZero
    ensures outcome.Err? ==> FailedRun(p, step, (model0, opt0), old(store.dirs), trace, (model, opt), store.dirs, saves)
    ensures outcome.Ok? ==>
      Progressed(p, test, step, (model0, opt0), old(store.dirs), FinalEpoch(p),
                 trace, trainStep, testStep, schedulerEpoch, (model, opt), store.dirs, saves)
  {
    trace, outcome, trainStep, testStep, schedulerEpoch := [], Ok(()), 0, 0, p.lastEpoch - 1;
    model, opt, saves := model0, opt0, [];
    var epoch: int := p.lastEpoch;
    ProgressedStart(p, test, step, (model0, opt0), old(store.dirs));
    while epoch < p.numEpoch
      invariant Progressed(p, test, step, (model0, opt0), old(store.dirs), epoch, trace, trainStep, testStep,
                           schedulerEpoch, (model, opt), store.dirs, saves)
      invariant outcome.Ok?
    {
      trace, outcome, trainStep, testStep, schedulerEpoch, model, opt, saves :=
        NextEpoch(p, test, step, model0, opt0, old(store.dirs), epoch, trace, trainStep, testStep, schedulerEpoch,
                  model, opt, saves, store);
      if outcome.Err? {
        return;
      }
      epoch := epoch + 1;
    }
    ProgressedEnd(p, test, step, (model0, opt0), old(store.dirs), epoch, trace, trainStep, testStep,
                  schedulerEpoch, (model, opt), store.dirs, saves);
  }

  /** `train`'s loops on one rank: the run's events, its counters, the model and optimizer it ends with, and
      the checkpoints it leaves. `test` is the held-out set as `__test` sees it; the scheduler starts at
      `lastEpoch - 1`, the argument it is built with. */
  method Train(p: Plan, test: seq<Evaluation.TestBatch>, step: StepFn, model0: StateDict, opt0: StateDict,
               store: CheckpointStore)
    returns (trace: seq<Event>, outcome: Result<()>, trainStep: nat, testStep: nat, schedulerEpoch: int,
             model: StateDict, opt: StateDict, ghost saves: seq<Save>)
    modifies store
    ensures trace == RunTrace(p, Evaluation.Usable(test))
    ensures outcome.Err? <==> p.rank == 0 && !Evaluation.Usable(test) && p.lastEpoch < p.numEpoch
    ensures outcome.Err? ==> (&& outcome.error == DivisionByZero
                              && (model, opt) == AfterBatches(step, (model0, opt0), p.lastEpoch + 1, p.batches)
                              && saves == MidSaves(p, step, (model0, opt0), p.lastEpoch + 1, p.batches))
    ensures outcome.Err? ==>
      var e, k := p.lastEpoch + 1, MidSavesBefore(p.batches);
      var t := AfterBatches(step, (model0, opt0), e, 10000 * k + 1);
      && (k == 0 ==> store.dirs == old(store.dirs))
      && (k > 0 ==> store.dirs.Keys == (old(store.dirs).Keys + {e}) - {e - 3} && store.dirs[e] == CheckpointDir(Some(t.0), Some(t.1)))
    ensures outcome.Ok? ==> saves == RunSaves(p, step, (model0, opt0), p.numEpoch)
    ensures store.dirs == ApplySaves(old(store.dirs), saves)
    ensures p.rank != 0 ==> saves == []
    ensures outcome.Ok? ==>
      var epochs := if p.numEpoch > p.lastEpoch then p.numEpoch - p.lastEpoch else 0;
      && (model, opt) == AfterEpochs(step, (model0, opt0), p, p.numEpoch)
      && trainStep == (if p.rank == 0 then LogsIn(epochs, p.batches) else 0)
      && testStep == (if p.rank == 0 then epochs else 0)
      && schedulerEpoch == p.lastEpoch - 1 + epochs
    ensures outcome.Ok? && p.rank == 0 && p.lastEpoch < p.numEpoch ==>
      && saves != [] && Contiguous(saves) && saves[0].epoch == p.lastEpoch + 1
      && saves[|saves| - 1] == Save(p.numEpoch, model, opt)
      && store.dirs[p.numEpoch] == CheckpointDir(Some(model), Some(opt))
      && (forall x :: x in store.dirs <==> (x in old(store.dirs) || p.lastEpoch + 1 <= x <= p.numEpoch) && !(p.lastEpoch + 1 - 3 <= x <= p.numEpoch - 3))
      && forall x :: p.lastEpoch < x <= p.numEpoch && x in store.dirs ==>
           store.dirs[x] == CheckpointDir(Some(AfterEpochs(step, (model0, opt0), p, x).0), Some(AfterEpochs(step, (model0, opt0), p, x).1))
  {
    trace, outcome, trainStep, testStep, schedulerEpoch, model, opt, saves := EpochLoop(p, test, step, model0, opt0, store);
    if outcome.Ok? && p.rank == 0 && p.lastEpoch < p.numEpoch {
      RunSavesShape(p, step, (model0, opt0), p.numEpoch);
      RunRetention(old(store.dirs), saves, p.lastEpoch + 1, p.numEpoch);
      RunCheckpoints(p, step, (model0, opt0), old(store.dirs), p.numEpoch);
    }
    if outcome.Err? {
      FailedRunStore(p, step, (model0, opt0), old(store.dirs));
    }
  }

  /** The out-of-cycle saves of an epoch are, in order, the states after the batches 10000, 20000, … below
      `b`, one per non-zero multiple of 10000, and there are none on ranks other than 0. */
  lemma {:induction false} MidSavesAt(p: Plan, step: StepFn, s: (StateDict, StateDict), e: int, b: nat)
    ensures |MidSaves(p, step, s, e, b)| == if p.rank == 0 then MidSavesBefore(b) else 0
    ensures forall i :: 0 <= i < |MidSaves(p, step, s, e, b)| ==>
      MidSaves(p, step, s, e, b)[i] == Save(e, AfterBatches(step, s, e, 10000 * (i + 1) + 1).0, AfterBatches(step, s, e, 10000 * (i + 1) + 1).1)
    decreases b
  {
    if b > 0 {
      MidSavesAt(p, step, s, e, b - 1);
      MidSavesBeforeStep(b);
    }
  }

  /** The saves of an epoch follow its `MidSave` events one to one: the `i`-th save holds the states left by
      the batch whose id the `i`-th event carries. */
  lemma {:induction false} MidSavesFollowTrace(p: Plan, step: StepFn, s: (StateDict, StateDict), e: int)
    requires e > p.lastEpoch
    ensures var ids, saves := Collect(EpochTrace(p, e), MidSaveId), MidSaves(p, step, s, e, p.batches);
      && |saves| == |ids|
      && forall i :: 0 <= i < |saves| ==>
           ids[i] > 0 && saves[i] == Save(e, AfterBatches(step, s, e, ids[i] + 1).0, AfterBatches(step, s, e, ids[i] + 1).1)
  {
    EpochMidSaves(p, e);
    MidSavesAt(p, step, s, e, p.batches);
    MultiplesAt(MidSavesBefore(p.batches));
  }

  /** A run whose first evaluation raised leaves the last out-of-cycle checkpoint of its first epoch in
      that epoch's directory, with the directory three epochs back removed; without such a save the
      store is untouched. */
  lemma {:induction false} FailedRunStore(p: Plan, step: StepFn, s0: (StateDict, StateDict), dirs0: map<int, CheckpointDir>)
    ensures var e, k, saves := p.lastEpoch + 1, MidSavesBefore(p.batches), MidSaves(p, step, s0, p.lastEpoch + 1, p.batches);
      var t := AfterBatches(step, s0, e, 10000 * k + 1);
      && (p.rank == 0 && k > 0 ==> && ApplySaves(dirs0, saves).Keys == (dirs0.Keys + {e}) - {e - 3}
                                     && ApplySaves(dirs0, saves)[e] == CheckpointDir(Some(t.0), Some(t.1)))
      && (p.rank != 0 || k == 0 ==> ApplySaves(dirs0, saves) == dirs0)
  {
    var e, k, saves := p.lastEpoch + 1, MidSavesBefore(p.batches), MidSaves(p, step, s0, p.lastEpoch + 1, p.batches);
    MidSavesAt(p, step, s0, e, p.batches);
    if saves != [] {
      var t := AfterBatches(step, s0, e, 10000 * k + 1);
      assert saves[|saves| - 1] == Save(e, t.0, t.1) by {
        assert 10000 * ((|saves| - 1) + 1) + 1 == 10000 * k + 1;
      }
      SameEpochRetention(dirs0, saves, e);
    }
  }

  /** Saves all of epoch `e` keep epoch `e`'s directory and remove epoch `e - 3`'s, and nothing else. */
  lemma {:induction false} SameEpochRetention(dirs: map<int, CheckpointDir>, saves: seq<Save>, e: int)
    requires saves != [] && AllOfEpoch(saves, e)
    ensures ApplySaves(dirs, saves).Keys == (dirs.Keys + {e}) - {e - 3}
  {
    assert Contiguous(saves);
    assert saves[0].epoch == e && saves[|saves| - 1].epoch == e;
    RetentionWindow(dirs, saves);
    var r := ApplySaves(dirs, saves);
    assert forall x :: x in r.Keys <==> x in (dirs.Keys + {e}) - {e - 3};
  }

  /** The run's saves up to epoch `upto` are those up to an earlier epoch `x`, then saves of later epochs only. */
  lemma {:induction false} RunSavesSplit(p: Plan, step: StepFn, s0: (StateDict, StateDict), x: int, upto: int)
    returns (rest: seq<Save>)
    requires p.lastEpoch <= x <= upto
    ensures RunSaves(p, step, s0, upto) == RunSaves(p, step, s0, x) + rest
    ensures forall i :: 0 <= i < |rest| ==> rest[i].epoch > x
    decreases upto - x
  {
    if upto == x {
      rest := [];
      assert RunSaves(p, step, s0, x) + rest == RunSaves(p, step, s0, x);
    } else {
      var r := RunSavesSplit(p, step, s0, x, upto - 1);
      var more := EpochSaves(p, step, AfterEpochs(step, s0, p, upto - 1), upto);
      rest := r + more;
      assert RunSaves(p, step, s0, upto) == RunSaves(p, step, s0, upto - 1) + more;
      var head := RunSaves(p, step, s0, x);
      assert head + r + more == head + rest;
      forall i | 0 <= i < |rest| ensures rest[i].epoch > x {
        if i < |r| {
          assert rest[i] == r[i];
        } else {
          assert rest[i] == more[i - |r|];
        }
      }
    }
  }

  /** On rank 0 the last save up to a completed epoch `x` is its end-of-epoch save of the states it ended with. */
  lemma {:induction false} RunSavesLast(p: Plan, step: StepFn, s0: (StateDict, StateDict), x: int)
    requires p.rank == 0 && x > p.lastEpoch
    ensures var saves := RunSaves(p, step, s0, x); var t := AfterEpochs(step, s0, p, x);
      saves != [] && saves[|saves| - 1] == Save(x, t.0, t.1)
  {
    AfterEpochsStep(step, s0, p, x);
  }

  /** On rank 0 a run that completed the epochs `lastEpoch + 1 .. upto` saved at least once per epoch, in
      epoch order from `lastEpoch + 1`, and last saved the states epoch `upto` ended with. */
  lemma {:induction false} RunSavesShape(p: Plan, step: StepFn, s0: (StateDict, StateDict), upto: int)
    requires p.rank == 0 && upto > p.lastEpoch
    ensures var saves, t := RunSaves(p, step, s0, upto), AfterEpochs(step, s0, p, upto);
      && saves != [] && Contiguous(saves) && saves[0].epoch == p.lastEpoch + 1
      && saves[|saves| - 1] == Save(upto, t.0, t.1)
    decreases upto - p.lastEpoch
  {
    RunSavesLast(p, step, s0, upto);
    var before := RunSaves(p, step, s0, upto - 1);
    var more := EpochSaves(p, step, AfterEpochs(step, s0, p, upto - 1), upto);
    assert RunSaves(p, step, s0, upto) == before + more;
    if upto - 1 > p.lastEpoch {
      RunSavesShape(p, step, s0, upto - 1);
      assert (before + more)[0] == before[0];
    } else {
      assert before + more == more;
    }
    ContiguousExtend(before, more, upto);
  }

  /** After a completed run on rank 0, each retained directory of the run's epochs holds the model and
      optimizer states that epoch ended with. */
  lemma {:induction false} RunCheckpoints(p: Plan, step: StepFn, s0: (StateDict, StateDict), dirs0: map<int, CheckpointDir>, upto: int)
    requires p.rank == 0 && p.lastEpoch <= upto
    ensures var dirs := ApplySaves(dirs0, RunSaves(p, step, s0, upto));
      forall x :: p.lastEpoch < x <= upto && x in dirs ==>
        dirs[x] == CheckpointDir(Some(AfterEpochs(step, s0, p, x).0), Some(AfterEpochs(step, s0, p, x).1))
  {
    var dirs := ApplySaves(dirs0, RunSaves(p, step, s0, upto));
    forall x | p.lastEpoch < x <= upto && x in dirs
      ensures dirs[x] == CheckpointDir(Some(AfterEpochs(step, s0, p, x).0), Some(AfterEpochs(step, s0, p, x).1))
    {
      var rest := RunSavesSplit(p, step, s0, x, upto);
      var before := RunSaves(p, step, s0, x);
      ApplySavesConcat(dirs0, before, rest);
      ApplySavesElsewhere(ApplySaves(dirs0, before), rest, x);
      RunSavesLast(p, step, s0, x);
    }
  }

  lemma {:induction false} AfterEpochsStep(step: StepFn, s: (StateDict, StateDict), p: Plan, e: int)
    requires e > p.lastEpoch
    ensures AfterEpochs(step, s, p, e) == AfterBatches(step, AfterEpochs(step, s, p, e - 1), e, p.batches)
  {
  }

  /** `RetentionWindow` for a run whose saves span the epochs `lo..hi`. */
  lemma {:induction false} RunRetention(dirs: map<int, CheckpointDir>, saves: seq<Save>, lo: int, hi: int)
    requires saves != [] && Contiguous(saves) && saves[0].epoch == lo && saves[|saves| - 1].epoch == hi
    ensures forall x :: x in ApplySaves(dirs, saves) <==> (x in dirs || lo <= x <= hi) && !(lo - 3 <= x <= hi - 3)
  {
    RetentionWindow(dirs, saves);
  }

  /** Resuming at epoch `k` builds the scheduler with `last_epoch = k - 1`: exactly where a fresh run's
      scheduler stands after its first `k` epochs, since it starts at -1 and steps once per epoch. */
  lemma {:induction false} ResumedSchedulerMatchesFresh(k: nat, batches: nat, rank: nat)
    ensures k - 1 == -1 + |Collect(EpochsTrace(Plan(0, k, batches, rank), k), SchedulerEpoch)|
  {
    SchedulerStepsPerEpoch(Plan(0, k, batches, rank), k);
  }

  /** The state `train` reaches before its loops: the model variant, the resumed epoch, the argument the
      scheduler is built with, and the model's and optimizer's states. */
  datatype Start = Start(kind: Config.ModelKind, lastEpoch: nat, schedulerLastEpoch: int, model: StateDict, optimizer: StateDict)

  /** The checkpoint directory at `path`; a path with nothing there holds neither file. */
  function Lookup(fs: map<string, CheckpointDir>, path: string): (d: CheckpointDir)
    ensures path !in fs ==> d == CheckpointDir(None, None)
  {
    if path in fs then fs[path] else CheckpointDir(None, None)
  }

  /** The parameters a `model.pdparams` offers for loading, when the run was given a directory. */
  function Offered(path: Option<string>, fs: map<string, CheckpointDir>): Option<StateDict>
  {
    match path
    case None => None
    case Some(dir) => Lookup(fs, dir).model
  }

  /** The offered file holds parameter `name` with the given shape. */
  predicate Fits(offer: Option<StateDict>, name: string, shape: seq<nat>)
  {
    offer.Some? && name in offer.value && offer.value[name].shape == shape
  }

  /** The set-up of `train`, in the source's order: check `use_model`, read the resume epoch off the resume
      path, load and filter the pretrained weights, then restore model and optimizer from the resume
      directory. `items` are the freshly built model's parameters; `opt0` the new optimizer's state. */
  method Setup(useModel: string, resumeModel: Option<string>, pretrainedModel: Option<string>,
               fs: map<string, CheckpointDir>, items: seq<(string, Tensor)>, opt0: StateDict)
    returns (r: Result<Start>, reports: seq<Report>)
    requires DistinctNames(items)
    ensures Config.ParseModel(useModel).Err? ==> r == Err(UnknownModel(useModel))
    ensures Config.ParseModel(useModel).Ok? && ParseResumeEpoch(resumeModel).Err?
      ==> r == Err(ParseResumeEpoch(resumeModel).error)
    ensures (&& Config.ParseModel(useModel).Ok? && ParseResumeEpoch(resumeModel).Ok?
             && pretrainedModel.Some? && Offered(pretrainedModel, fs).None?)
      ==> r == Err(MissingModelParams)
    ensures (&& Config.ParseModel(useModel).Ok? && ParseResumeEpoch(resumeModel).Ok?
             && (pretrainedModel.None? || Offered(pretrainedModel, fs).Some?)
             && resumeModel.Some? && LoadForResume(Lookup(fs, resumeModel.value)).Err?)
      ==> r == Err(LoadForResume(Lookup(fs, resumeModel.value)).error)
    ensures r.Ok? <==> (&& Config.ParseModel(useModel).Ok? && ParseResumeEpoch(resumeModel).Ok?
                        && (pretrainedModel.None? || Offered(pretrainedModel, fs).Some?)
                        && (resumeModel.None? || LoadForResume(Lookup(fs, resumeModel.value)).Ok?))
    ensures r.Ok? ==> (&& r.value.kind == Config.ParseModel(useModel).value
                       && r.value.lastEpoch == ParseResumeEpoch(resumeModel).value
                       && r.value.schedulerLastEpoch == r.value.lastEpoch - 1)
    ensures r.Ok? ==> r.value.optimizer == if resumeModel.Some? then Lookup(fs, resumeModel.value).optimizer.value else opt0
    ensures r.Ok? ==> r.value.model.Keys == set i | 0 <= i < |items| :: items[i].0
    ensures r.Ok? ==> forall i :: 0 <= i < |items| ==>
      var (name, initial) := items[i];
      r.value.model[name] ==
        if Fits(Offered(resumeModel, fs), name, initial.shape) then Offered(resumeModel, fs).value[name]
        else if Fits(Offered(pretrainedModel, fs), name, initial.shape) then Offered(pretrainedModel, fs).value[name]
        else initial
    ensures r.Ok? ==> reports == if pretrainedModel.Some? then Reports(items, Offered(pretrainedModel, fs).value) else []
  {
    reports := [];
    var kind := Config.ParseModel(useModel);
    if kind.Err? {
      return Err(kind.error), reports;
    }
    var lastEpoch := ParseResumeEpoch(resumeModel);
    if lastEpoch.Err? {
      return Err(lastEpoch.error), reports;
    }
    var model := AsDict(items);
    var opt := opt0;
    if pretrainedModel.Some? {
      var loaded := LoadModelParams(Lookup(fs, pretrainedModel.value));
      if loaded.Err? {
        return Err(loaded.error), reports;
      }
      var kept;
      kept, reports := FilterPretrained(items, loaded.value);
      PretrainedLoad(items, loaded.value, kept);
      model := SetDict(model, kept);
    }
    ghost var pretrained := model;
    if resumeModel.Some? {
      var resumed := LoadForResume(Lookup(fs, resumeModel.value));
      if resumed.Err? {
        return Err(resumed.error), reports;
      }
      model := SetDict(model, resumed.value.0);
      opt := resumed.value.1;
    }
    ResumeWins(items, pretrained, Offered(pretrainedModel, fs), Offered(resumeModel, fs), model);
    r := Ok(Start(kind.value, lastEpoch.value, lastEpoch.value as int - 1, model, opt));
  }

  /** With the pretrained weights taken where they fit, a resume load on top takes precedence wherever its
      tensors fit, and the pretrained or initial tensor stays elsewhere. */
  lemma {:induction false} ResumeWins(items: seq<(string, Tensor)>, pretrained: StateDict, offerP: Option<StateDict>,
                   offerR: Option<StateDict>, model: StateDict)
    requires pretrained.Keys == set i | 0 <= i < |items| :: items[i].0
    requires forall i :: 0 <= i < |items| ==>
      pretrained[items[i].0] == if Fits(offerP, items[i].0, items[i].1.shape) then offerP.value[items[i].0] else items[i].1
    requires forall i :: 0 <= i < |items| ==> pretrained[items[i].0].shape == items[i].1.shape
    requires model == if offerR.Some? then SetDict(pretrained, offerR.value) else pretrained
    ensures model.Keys == set i | 0 <= i < |items| :: items[i].0
    ensures forall i :: 0 <= i < |items| ==>
      var (name, initial) := items[i];
      model[name] ==
        if Fits(offerR, name, initial.shape) then offerR.value[name]
        else if Fits(offerP, name, initial.shape) then offerP.value[name]
        else initial
  {
  }
}
