# PPASR trainer bookkeeping, modelled and verified in Dafny

PPASR trains, evaluates and exports a DeepSpeech2 speech-recognition model with PaddlePaddle. Most of
`ppasr/trainer.py` drives Paddle: tensors, data loaders, distributed set-up and logging. This project
models the exact bookkeeping inside that file and proves what it promises:

- **Checkpoint store** (`checkpoints.dfy`). `save_model` writes `epoch_N/model.pdparams` and
  `optimizer.pdopt`, then deletes `epoch_(N-3)`. `CheckpointStore` is a class whose `dirs` map
  (epoch to directory) `SaveModel` updates in place. The lemmas prove the retention window for any
  contiguous run of saves, and what resume, evaluation and export each require from a directory.
- **Resume epoch** (`resume.dfy`). `int(re.findall(r'\d+', resume_model)[-1])`, or 0 when there is
  no resume path. `findall` is modelled as a left-to-right scan of maximal digit runs. It is proved to
  agree with an independent scan from the end of the path.
- **Training schedule** (`schedule.dfy`, `training.dfy`).
  - The epoch and batch loops of `train` are methods with loops (`TrainBatch`, `TrainBatches`,
    `TrainEpoch`, `EpochLoop`, `Train`). They emit a trace of events, keep the counters `train_step`,
    `test_step` and the scheduler's epoch, and save checkpoints through the store. Each save is tied
    to the model and optimizer states of the batch or epoch that made it.
  - Functions of the run's plan state what that trace is: the resumed epoch, `num_epoch`,
    `len(train_loader)` and `local_rank`.
  - Lemmas project the trace onto each kind of event: logs, evaluations, saves, scheduler steps,
    batch ids and the ETA's batch count.
- **Set-up of `train`** (`training.dfy`, `pretrained.dfy`). The order is: check `use_model`, parse the
  resume epoch, load the pretrained weights, then restore model and optimizer from the resume directory.
  - The pretrained filter is a loop that pops every loaded tensor whose shape differs from the
    model's. It reports `not used` for each popped tensor and `Lack weight` for each parameter the
    file lacks.
  - The lemmas prove which tensor each parameter finally holds.
- **Vocabulary** (`vocabulary.dfy`). `create_data` sorts the character counter by count, descending
  and stable, writes `<blank>`, then writes entries until the first count below the threshold. The
  lemmas prove three things about the file: it lists exactly the characters that reach the
  threshold, in non-increasing count order, with ties in counter order.
- **Evaluation** (`evaluation.dfy`, `config.dfy`).
  - `__test` and `evaluate` average `cer / len(label)` over every sample.
  - `__test` averages the loss over batches.
  - Both divide by zero on an empty label or an empty loader. `__test`'s progress line also divides
    by zero when the first batch holds no sample.
  - The lemmas prove: the CER is zero exactly when every hypothesis matches; the two weightings
    agree when batches have equal sizes and can differ otherwise (batches of sizes 1 and 3 can give
    0.5 against 0.25).
  - `config.dfy` also holds the model-name and decoder-name dispatch, `evaluate`, and the stage
    order of `export`.

## Behaviour worth knowing

- The resume epoch is the *last* digit run anywhere in the path, not a trailing integer. For
  `models/deepspeech2/epoch_50/` that is 50. A path with no digit raises `IndexError`.
- `evaluate` and `export` require only `model.pdparams`. Only a resume requires both files.
- A `decoder` other than `ctc_greedy` and `ctc_beam_search` is not rejected. It takes the beam-search
  branch, which has no decoder object, and fails at the first batch. An empty loader skips that
  failure and reaches the final division by zero.
- The unknown-model error is not raised before anything else: `train` and `evaluate` build their
  datasets first.
- The test loss is the mean of per-batch means, not the corpus mean. It equals the per-sample mean
  when all batches have the same size, and can differ otherwise.
- An evaluation that raises stops the run after its first epoch's batches. The last out-of-cycle
  checkpoint of that epoch, if any, stays in the store.
- A missing pretrained file is a crash, not a recoverable warning. Only shape mismatches and
  lacking parameters are recoverable.

## Model

| member | source | states |
|---|---|---|
| Checkpoints.AfterSave | ppasr/trainer.py:380-390 | after saving epoch `e`, `e` holds both files, `e-3` is absent, and every other directory is unchanged |
| Checkpoints.CheckpointStore.SaveModel | ppasr/trainer.py:380-390 | creating the directory, writing both blobs and removing `epoch_(e-3)` leaves the store `AfterSave` describes |
| Checkpoints.ApplySaves | ppasr/trainer.py:326-349 | after a sequence of saves, the last one's epoch holds exactly what it wrote; no saves change nothing |
| Checkpoints.RetentionWindow | ppasr/trainer.py:382-390 | saving a contiguous run of epochs `lo..hi` leaves exactly the old directories plus `lo..hi`, minus `lo-3..hi-3` |
| Checkpoints.FreshRunKeepsLastThree | ppasr/trainer.py:382-390 | from an empty store, saving epochs 1..k once each leaves exactly the last three (all of them while k < 3); for k = 6, {4, 5, 6} |
| Checkpoints.MidThenEndSave | ppasr/trainer.py:326-349 | a mid-epoch save followed by the end-of-epoch save of the same epoch leaves the same store as the second save alone |
| Checkpoints.LoadModelParams | ppasr/trainer.py:143-144 | loading succeeds exactly when `model.pdparams` exists and returns its contents; otherwise it fails with the missing-model error |
| Checkpoints.LoadForResume | ppasr/trainer.py:286-290 | a resume succeeds exactly when both files exist; the model file is checked first, so each missing file has its own error |
| Checkpoints.SavedCheckpointResumes | ppasr/trainer.py:385-386 | a directory `save_model` wrote passes the resume check and reads back the states written |
| ResumeEpoch.DigitRuns | ppasr/trainer.py:254 | every match of `\d+` is a non-empty string of digits |
| ResumeEpoch.LastDigitRun | ppasr/trainer.py:254 | the backward scan finds no run exactly when the path has no digit, and otherwise bounds the last maximal digit run |
| ResumeEpoch.NoRunsIffNoDigits | ppasr/trainer.py:254 | `findall` returns no match exactly when the path holds no digit |
| ResumeEpoch.LastMatchIsLastRun | ppasr/trainer.py:254 | the last `findall` match is the last maximal digit run found scanning from the end |
| ResumeEpoch.ParseResumeEpoch | ppasr/trainer.py:254 | no path gives 0; a path without digits gives the `[-1]` index error; otherwise the result is the value of the last maximal digit run |
| ResumeEpoch.LastNumberWins | ppasr/trainer.py:254 | a path made of any digit-free-ended prefix, a number and a digit-free tail resumes from that number, whatever digits the prefix holds |
| ResumeEpoch.DefaultPathIsEpoch50 | ppasr/trainer.py:254 | `models/deepspeech2/epoch_50/` resumes from 50, not 2 |
| Schedule.LogsBeforeClosedForm | ppasr/trainer.py:316 | the batch ids `0..b-1` that are multiples of 100 number `ceil(b/100)` |
| Schedule.TrainStepAt | ppasr/trainer.py:316-324 | ranks other than 0 never advance `train_step` |
| Schedule.EpochEnd | ppasr/trainer.py:332-350 | every epoch ends with `scheduler.step()`, on every rank |
| Schedule.BatchEvents | ppasr/trainer.py:304-329 | each batch's events start with its optimisation step |
| Schedule.TraceLengths | ppasr/trainer.py:304-350 | a batch loop gives one step per batch and, on rank 0 only, one log per multiple of 100 and one save per non-zero multiple of 10000; an epoch adds an evaluation and a save on rank 0 and one scheduler step |
| Schedule.EpochTrace | ppasr/trainer.py:300-350 | every epoch ends with `scheduler.step()` |
| Schedule.EpochsTrace | ppasr/trainer.py:300 | the trace of the epochs so far is empty exactly when no epoch label has been reached |
| Schedule.RunTrace | ppasr/trainer.py:300-350 | the run emits nothing exactly when `last_epoch >= num_epoch`; a failed run ends with the first epoch's failed evaluation, any other run with the last epoch's scheduler step |
| Schedule.SchedulerStepsPerEpoch | ppasr/trainer.py:300-350 | epochs are labelled `last_epoch+1 .. num_epoch` in increasing order, none when `last_epoch >= num_epoch`, and the scheduler steps once per epoch |
| Schedule.BatchIdsInOrder | ppasr/trainer.py:304 | each epoch runs batch ids `0 .. len-1` in order, on every rank |
| Schedule.BatchLogSteps | ppasr/trainer.py:316-324 | within an epoch, rank 0 logs at batch ids 0, 100, 200, … (`ceil(n/100)` of them) with consecutive `train_step` values; other ranks never log |
| Schedule.RunLogSteps | ppasr/trainer.py:296-324 | across the run, rank 0 logs with `train_step` = 0, 1, 2, …, `ceil(len/100)` per epoch, each value once; other ranks never log |
| Schedule.RunTestSteps | ppasr/trainer.py:332-349 | rank 0 evaluates once per epoch with `test_step` = 0, 1, 2, … and saves once at each epoch's end, in epoch order; other ranks do neither |
| Schedule.EpochMidSaves | ppasr/trainer.py:326-328 | the out-of-cycle saves of an epoch happen exactly at the non-zero multiples of 10000 below `len`, in increasing order, and only on rank 0 |
| Schedule.RunBatchCount | ppasr/trainer.py:298-304 | the run performs `len(train_loader)` batches per epoch |
| Schedule.Remaining | ppasr/trainer.py:298-317 | the ETA's count `sum_batch - (epoch-1)*len - batch_id` is the batches of the epochs after `epoch` plus those of `epoch` from `batch_id` on |
| Schedule.RunRemainings | ppasr/trainer.py:316-317 | every ETA count rank 0 logs is the count at a logged batch of the run, hence at least 1 within the run; other ranks log none |
| Schedule.RemainingIsBatchesLeft | ppasr/trainer.py:298-317 | the ETA's count is the number of batches the run still performs, the current one included, and is at least 1, also on a resumed run |
| Training.TrainBatch | ppasr/trainer.py:304-329 | one batch emits its events, advances `train_step` on rank 0 at multiples of 100, takes the states one optimisation step on, and on rank 0 at a non-zero multiple of 10000 saves exactly those new states under the current epoch, otherwise nothing |
| Training.TrainBatches | ppasr/trainer.py:304-329 | the batch loop emits the epoch's batch trace, leaves `train_step` and the states where the batch schedule puts them, and its saves are `MidSaves`: the states after each batch 10000, 20000, … on rank 0 |
| Training.TrainEpoch | ppasr/trainer.py:300-350 | an epoch is its batches, then on rank 0 the evaluation at `test_step` and the end save of the final states, then the scheduler step; it fails exactly when rank 0's evaluation divides by zero, before saving or stepping; its saves are `EpochSaves` on success and only the out-of-cycle ones on failure |
| Training.MidSaves | ppasr/trainer.py:326-328 | the out-of-cycle saves are all of the current epoch, and there are none on ranks other than 0 |
| Training.EpochSaves | ppasr/trainer.py:326-349 | an epoch's saves are all of that epoch, and on rank 0 the last one holds the states its last batch left |
| Training.RunSaves | ppasr/trainer.py:326-349 | ranks other than 0 never save |
| Training.MidSavesAt | ppasr/trainer.py:326-328 | on rank 0 an epoch saves out of cycle once per non-zero multiple of 10000 below its batch count, the `i`-th time with the states after batch `10000(i+1)` |
| Training.MidSavesFollowTrace | ppasr/trainer.py:326-328 | the out-of-cycle saves follow the epoch's `MidSave` events one to one, each holding the states the batch with that event's id left |
| Training.RunSavesShape | ppasr/trainer.py:326-349 | on rank 0 a run's saves go epoch by epoch from `last_epoch + 1`, and the last holds the states the last epoch ended with |
| Training.RunSavesLast | ppasr/trainer.py:348-349 | on rank 0 the last save up to a completed epoch is its end-of-epoch save |
| Training.RunCheckpoints | ppasr/trainer.py:380-390 | after a run on rank 0, every retained directory of the run's epochs holds the states that epoch ended with |
| Training.FailedRunStore | ppasr/trainer.py:326-336 | a run whose first evaluation raised leaves the store with that epoch's directory holding the states after its last out-of-cycle save, and epoch `e-3` removed; without such a save the store is unchanged |
| Training.NextEpoch | ppasr/trainer.py:300-350 | one pass of the epoch loop carries `Progressed` to the next epoch label, or ends in `FailedRun` exactly when rank 0's evaluation raises |
| Training.ProgressedStep | ppasr/trainer.py:300-350 | one completed epoch carries the run's trace, counters, states and saves from one epoch label to the next |
| Training.FailsAtFirstEvaluation | ppasr/trainer.py:332-336 | on rank 0 with an unusable held-out set, the run cannot have completed an epoch |
| Training.FirstEvaluationFails | ppasr/trainer.py:332-336 | an evaluation that raises stops the run after its first epoch's batches, with the states those batches left and exactly that epoch's out-of-cycle saves |
| Training.EpochLoop | ppasr/trainer.py:300-350 | the epoch loop fails exactly when rank 0 evaluates an unusable set, leaving `FailedRun`; otherwise it completes every epoch label up to `num_epoch`, with the trace, counters, states and saves `Progressed` states |
| Training.Train | ppasr/trainer.py:296-350 | the loops emit the run's trace; on failure the states after the first epoch's batches and the store with that epoch's last out-of-cycle checkpoint (or unchanged when there is none); on success the final states and counters, the run's saves `RunSaves`, and on rank 0 the store keeps exactly the retention window, each retained epoch holding the states that epoch ended with; other ranks never save |
| Training.RunRetention | ppasr/trainer.py:348-390 | the saves of a run whose epochs span `lo..hi` leave the retention window `lo..hi` minus `lo-3..hi-3` |
| Training.ResumedSchedulerMatchesFresh | ppasr/trainer.py:254-256 | building the scheduler with `last_epoch - 1` puts it where a fresh run's scheduler stands after `last_epoch` epochs |
| Training.Setup | ppasr/trainer.py:243-291 | the set-up fails on an unknown model, a resume path without digits, a missing pretrained file, or a resume directory lacking a file, in that order; otherwise each parameter holds the resumed tensor where it fits, else the pretrained one where it fits, else its initial value, and the optimizer holds the resumed state |
| Training.ResumeWins | ppasr/trainer.py:270-291 | a resume load on top of a pretrained load takes precedence wherever its tensor fits, and leaves the pretrained or initial tensor elsewhere |
| Pretrained.FilterPretrained | ppasr/trainer.py:274-281 | the map passed to `set_dict` is the loaded map minus exactly the names the model holds with a different shape; the printed lines follow the model's parameter order |
| Pretrained.SetDict | ppasr/trainer.py:282 | `set_dict` keeps the model's parameter names and shapes |
| Pretrained.PretrainedLoad | ppasr/trainer.py:270-282 | after the filter, each parameter takes the loaded tensor exactly when the file holds it with the parameter's shape |
| Pretrained.FilterKeeps | ppasr/trainer.py:274-279 | loaded tensors the model has no parameter for, and tensors whose shape fits, survive the filter |
| Pretrained.Reports | ppasr/trainer.py:274-281 | at most one line per model parameter, each naming a model parameter |
| Pretrained.LackingReported | ppasr/trainer.py:280-281 | exactly the model parameters absent from the file are reported as lacking |
| Pretrained.NotUsedReported | ppasr/trainer.py:274-279 | exactly the names the filter pops are reported as not used, each line with the loaded shape and the differing shape of the model parameter of that name |
| Pretrained.ResumeOverridesPretrained | ppasr/trainer.py:282-289 | a resume that restores every parameter with its own shape erases any effect of the pretrained load |
| Vocabulary.InsertDesc | ppasr/trainer.py:89 | inserting an item into the sorted prefix adds exactly that item |
| Vocabulary.SortDesc | ppasr/trainer.py:89 | the sorted list is a permutation of the counter's items |
| Vocabulary.SortDescCorrect | ppasr/trainer.py:89 | the sort permutes the counter's items, orders them by non-increasing count, and keeps items of equal count in counter order |
| Vocabulary.FirstBelow | ppasr/trainer.py:92-94 | the `break` stops at the first entry whose count is below the threshold |
| Vocabulary.FilterSorted | ppasr/trainer.py:92-94 | on a sorted list, the entries before the break are exactly the entries that reach the threshold |
| Vocabulary.WriteVocabulary | ppasr/trainer.py:90-95 | the file is the blank line, then one line per sorted entry until the first count below the threshold |
| Vocabulary.CreateVocabulary | ppasr/trainer.py:86-95 | the file is the blank line, then the sorted entries whose count reaches the threshold |
| Vocabulary.VocabularyContents | ppasr/trainer.py:86-95 | the written characters are exactly the counter's items that reach the threshold, as often as in the counter, by non-increasing count, with ties in counter order |
| Evaluation.BatchRatios | ppasr/trainer.py:368-370 | each sample of a batch contributes `cer / len(label)`, in order |
| Evaluation.AllRatios | ppasr/trainer.py:170-180 | the list `c` is empty exactly when no batch holds a sample |
| Evaluation.AppendRatios | ppasr/trainer.py:368-370 | the inner loop appends every sample's ratio, or stops exactly when some label is empty |
| Evaluation.Test | ppasr/trainer.py:355-377 | `__test` fails with a division by zero exactly when the loader is empty, its first batch is empty or a label is empty; otherwise it returns the per-sample mean CER, the per-batch mean loss and the progress lines with their running CER |
| Evaluation.EmptyLabelUnusable | ppasr/trainer.py:370 | one empty label anywhere makes `__test` fail |
| Evaluation.RatiosZeroIff | ppasr/trainer.py:178-180 | with non-negative distances, every ratio is non-negative, and all are zero exactly when every hypothesis matches |
| Evaluation.CerZeroIffPerfect | ppasr/trainer.py:375 | the CER is non-negative and is zero exactly when every hypothesis matches its label |
| Evaluation.EqualSizesSameWeighting | ppasr/trainer.py:375-376 | with batches of one size, the mean of batch means equals the mean over all values |
| Evaluation.UnequalSizesDiffer | ppasr/trainer.py:375-376 | with unequal batch sizes the mean of batch means and the mean over all values can differ: sizes 1 and 3 can give 0.5 against 0.25 |
| Evaluation.TestLossIsSampleMean | ppasr/trainer.py:361-376 | when every batch's loss is the mean of its samples' losses and all batches have one size, `__test`'s loss is the mean loss over all samples |
| Evaluation.ProgressLog | ppasr/trainer.py:368-374 | over the batch ids below `j`, `__test` prints `ceil(j/100)` progress lines, the `k`-th at batch id `100k` with that batch's loss and the CER of the samples of batches `0..100k`, the samples seen so far |
| Config.ParseModel | ppasr/trainer.py:244-249 | `deepspeech2` and `deepspeech2_light` select their variants, and every other name is an unknown-model error |
| Config.ChooseDecoder | ppasr/trainer.py:148-167 | `ctc_beam_search` without the decoder library fails; `ctc_greedy` decodes greedily; every other name takes the beam branch without a decoder object |
| Config.Evaluate | ppasr/trainer.py:102-182 | `evaluate` fails on an unknown model, a missing `model.pdparams`, an unavailable or unbound beam decoder, an empty label or no sample at all; otherwise it returns the mean of the per-sample ratios |
| Config.Export | ppasr/trainer.py:405-431 | `export` fails on an unknown model or a missing `model.pdparams`; otherwise the exported model is normaliser, mask, the restored network, softmax |

## Left out

- Paddle numerics are not modelled: forward passes, CTC loss, backward pass, Adam, L2 decay and gradient clipping. One optimisation step is an opaque function `StepFn` from the batch's position and the two states to the new states.
- The learning-rate values of `ExponentialDecay` (gamma 0.9), `get_lr()` and the `Learning rate` scalar are floating point computed inside Paddle. Only the scheduler's epoch counter is modelled.
- Wall-clock time, the ETA's seconds, `print`, `tqdm`, `LogWriter` scalars and `fuzzy_delete` are I/O or time. Only the ETA's integer batch count is modelled.
- The distributed runtime (`fleet`, `get_world_size`, `get_rank`) is left out because it is concurrency. The rank is an input, and each rank's run is modelled separately.
- Dataset, sampler and loader construction are not modelled because their logic lives in other files. The held-out set is a fixed sequence of batches, evaluated identically in every epoch.
- `greedy_decoder_batch`, `BeamSearchDecoder`, `labels_to_string` and the `cer` metric are opaque. Each sample is given by its edit distance and label length.
- `create_manifest`, `create_noise`, `count_manifest` and `compute_mean_std` are foreign calls. The character counter is an input.
- The text format `'%s\t%d\n'` of vocabulary lines is not modelled. A line is a value: the blank token, or a character with its count.
- `paddle.jit.save`, the input specs and the feature normaliser's statistics are serialisation of Paddle layers. Only the stage order of the exported model is kept.
- Evaluation arithmetic is over exact reals rather than floating point.
- ResumeEpoch.ParseResumeEpoch: `\d` is modelled as the ASCII digits 0-9. Python's `re` also matches other Unicode decimal digits.
- Config.Evaluate: errors from building the test dataset before the model-name check are not modelled, so that check comes first in the model.
- Config.Export: errors from building the text featurizer and the feature normaliser before the model-name check (ppasr/trainer.py:400-402) are not modelled either, so that check comes first in the model.
- Training.Setup: a missing pretrained `model.pdparams`, on which `paddle.load` raises, is reported as the same missing-model error as for the other checkpoint files.
- Training.Setup: the semantics of Paddle's `set_dict`/`set_state_dict` are an assumption, modelled by `SetDict`. A parameter takes a same-named tensor of its own shape and keeps its value otherwise.
- Training.Train: the trace records which evaluation and save happen, and at which step, but not the CER and loss values an evaluation prints.
