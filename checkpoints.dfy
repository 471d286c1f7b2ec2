/** The checkpoint directories `save_model_path/use_model/epoch_N` and their bounded retention. */
module Checkpoints {
  import opened Failures

  /** A parameter or optimizer tensor: its shape matters to the trainer, its values are opaque numerics. */
  datatype Tensor = Tensor(shape: seq<nat>, values: seq<real>)

  /** What `state_dict()` returns and `paddle.load` reads back: a name-to-tensor mapping. */
  type StateDict = map<string, Tensor>

  /** The two files of one checkpoint directory; `None` when the file is absent. */
  datatype CheckpointDir = CheckpointDir(model: Option<StateDict>, optimizer: Option<StateDict>)

  /** One call `save_model(epoch=epoch)` with the states it writes. */
  datatype Save = Save(epoch: int, model: StateDict, optimizer: StateDict)

  /** The directories left by `save_model(epoch)`: epoch `epoch` holds both blobs, `epoch - 3` is gone,
      every other directory is untouched. */
  function AfterSave(dirs: map<int, CheckpointDir>, epoch: int, model: StateDict, optimizer: StateDict)
    : (r: map<int, CheckpointDir>)
    ensures r.Keys == (dirs.Keys + {epoch}) - {epoch - 3}
    ensures r[epoch] == CheckpointDir(Some(model), Some(optimizer))
    ensures forall k :: k in r && k != epoch ==> k in dirs && r[k] == dirs[k]
  {
    dirs[epoch := CheckpointDir(Some(model), Some(optimizer))] - {epoch - 3}
  }

  /** The directories left by a sequence of `save_model` calls, in order. */
  function ApplySaves(dirs: map<int, CheckpointDir>, saves: seq<Save>): (r: map<int, CheckpointDir>)
    ensures saves != [] ==> var s := saves[|saves| - 1]; s.epoch in r && r[s.epoch] == CheckpointDir(Some(s.model), Some(s.optimizer))
    ensures saves == [] ==> r == dirs
    decreases |saves|
  {
    if saves == [] then dirs
    else
      var s := saves[|saves| - 1];
      AfterSave(ApplySaves(dirs, saves[..|saves| - 1]), s.epoch, s.model, s.optimizer)
  }

  /** Consecutive saves stay in the same epoch or move on to the next one, as the training loop's do. */
  ghost predicate Contiguous(saves: seq<Save>)
  {
    forall i :: 0 < i < |saves| ==> saves[i].epoch == saves[i - 1].epoch || saves[i].epoch == saves[i - 1].epoch + 1
  }

  /** A checkpoint directory as the evaluator and the exporter need it: `model.pdparams` must exist. */
  function LoadModelParams(d: CheckpointDir): (r: Result<StateDict>)
    ensures r.Ok? <==> d.model.Some?
    ensures r.Ok? ==> r.value == d.model.value
    ensures r.Err? ==> r.error == MissingModelParams
  {
    match d.model
    case Some(m) => Ok(m)
    case None => Err(MissingModelParams)
  }

  /** A checkpoint directory as a resume needs it: both files, `model.pdparams` checked first. */
  function LoadForResume(d: CheckpointDir): (r: Result<(StateDict, StateDict)>)
    ensures r.Ok? <==> d.model.Some? && d.optimizer.Some?
    ensures r.Ok? ==> r.value == (d.model.value, d.optimizer.value)
    ensures d.model.None? ==> r == Err(MissingModelParams)
    ensures d.model.Some? && d.optimizer.None? ==> r == Err(MissingOptimizerState)
  {
    if d.model.None? then Err(MissingModelParams)
    else if d.optimizer.None? then Err(MissingOptimizerState)
    else Ok((d.model.value, d.optimizer.value))
  }

  /** The checkpoint store: the directories under `save_model_path/use_model`, keyed by epoch number. */
  class CheckpointStore {
    var dirs: map<int, CheckpointDir>

    constructor (existing: map<int, CheckpointDir>)
      ensures dirs == existing
    {
      dirs := existing;
    }

    /** `save_model`: create the directory if needed, write both blobs, then remove `epoch_(epoch-3)` if present. */
    method SaveModel(epoch: int, model: StateDict, optimizer: StateDict)
      modifies this
      ensures dirs == AfterSave(old(dirs), epoch, model, optimizer)
    {
      if epoch !in dirs {
        dirs := dirs[epoch := CheckpointDir(None, None)];
      }
      dirs := dirs[epoch := dirs[epoch].(model := Some(model))];
      dirs := dirs[epoch := dirs[epoch].(optimizer := Some(optimizer))];
      if epoch - 3 in dirs {
        dirs := dirs - {epoch - 3};
      }
    }
  }

  /** Saving any run of contiguous epochs `lo..hi` keeps what was there and the new epochs, minus
      exactly the epochs `lo-3..hi-3`: the store ends with at most the last three of the run. */
  lemma {:induction false} RetentionWindow(dirs: map<int, CheckpointDir>, saves: seq<Save>)
    requires saves != [] && Contiguous(saves)
    ensures var lo, hi := saves[0].epoch, saves[|saves| - 1].epoch;
      forall x :: x in ApplySaves(dirs, saves) <==> (x in dirs || lo <= x <= hi) && !(lo - 3 <= x <= hi - 3)
  {
    var lo, hi := saves[0].epoch, saves[|saves| - 1].epoch;
    var r := ApplySaves(dirs, saves);
    if |saves| > 1 {
      var prefix := saves[..|saves| - 1];
      var h := prefix[|prefix| - 1].epoch;
      assert Contiguous(prefix) by {
        forall i | 0 < i < |prefix| ensures prefix[i].epoch == prefix[i - 1].epoch || prefix[i].epoch == prefix[i - 1].epoch + 1 {
          assert prefix[i] == saves[i] && prefix[i - 1] == saves[i - 1];
        }
      }
      RetentionWindow(dirs, prefix);
      EpochsFromFirst(prefix);
      assert prefix[0] == saves[0];
      assert hi == h || hi == h + 1 by { assert saves[|saves| - 2] == prefix[|prefix| - 1]; }
      var p := ApplySaves(dirs, prefix);
      assert r.Keys == (p.Keys + {hi}) - {hi - 3};
      assert forall x :: x in p <==> (x in dirs || lo <= x <= h) && !(lo - 3 <= x <= h - 3);
    }
  }

  /** One more save applies on top of the ones before it. */
  lemma ApplySavesSnoc(dirs: map<int, CheckpointDir>, saves: seq<Save>, s: Save)
    ensures ApplySaves(dirs, saves + [s]) == AfterSave(ApplySaves(dirs, saves), s.epoch, s.model, s.optimizer)
  {
    assert (saves + [s])[..|saves|] == saves;
  }

  /** Saves of other epochs leave the directory of epoch `x` as it was, when they leave it at all. */
  lemma {:induction false} ApplySavesElsewhere(dirs: map<int, CheckpointDir>, saves: seq<Save>, x: int)
    requires forall i :: 0 <= i < |saves| ==> saves[i].epoch != x
    ensures x in ApplySaves(dirs, saves) ==> x in dirs && ApplySaves(dirs, saves)[x] == dirs[x]
    decreases |saves|
  {
    if saves != [] {
      var init := saves[..|saves| - 1];
      assert forall i :: 0 <= i < |init| ==> init[i] == saves[i];
      ApplySavesElsewhere(dirs, init, x);
    }
  }

  /** Saves applied in two batches leave the same store as all of them applied at once. */
  lemma {:induction false} ApplySavesConcat(dirs: map<int, CheckpointDir>, a: seq<Save>, b: seq<Save>)
    ensures ApplySaves(ApplySaves(dirs, a), b) == ApplySaves(dirs, a + b)
    decreases |b|
  {
    if b != [] {
      var init := b[..|b| - 1];
      ApplySavesConcat(dirs, a, init);
      assert (a + b)[..|a + b| - 1] == a + init;
      assert (a + b)[|a + b| - 1] == b[|b| - 1];
    } else {
      assert a + b == a;
    }
  }

  /** Saves of epoch `e` appended to a contiguous run that last saved epoch `e - 1` or `e` keep it contiguous. */
  lemma ContiguousExtend(saves: seq<Save>, more: seq<Save>, e: int)
    requires Contiguous(saves)
    requires saves != [] ==> saves[|saves| - 1].epoch == e - 1 || saves[|saves| - 1].epoch == e
    requires forall i :: 0 <= i < |more| ==> more[i].epoch == e
    ensures Contiguous(saves + more)
  {
  }

  /** In a contiguous run every epoch is at least the first. */
  lemma {:induction false} EpochsFromFirst(saves: seq<Save>)
    requires saves != [] && Contiguous(saves)
    ensures saves[0].epoch <= saves[|saves| - 1].epoch
  {
    if |saves| > 1 {
      var prefix := saves[..|saves| - 1];
      assert Contiguous(prefix) by {
        forall i | 0 < i < |prefix| ensures prefix[i].epoch == prefix[i - 1].epoch || prefix[i].epoch == prefix[i - 1].epoch + 1 {
          assert prefix[i] == saves[i] && prefix[i - 1] == saves[i - 1];
        }
      }
      EpochsFromFirst(prefix);
      assert saves[|saves| - 2] == prefix[|prefix| - 1];
    }
  }

  /** A fresh run saving epochs 1..k once each ends with exactly the last three (1..k while k < 3);
      for k = 6 that is {4, 5, 6}. */
  lemma FreshRunKeepsLastThree(saves: seq<Save>, k: nat)
    requires |saves| == k && k >= 1
    requires forall i :: 0 <= i < k ==> saves[i].epoch == i + 1
    ensures forall x :: x in ApplySaves(map[], saves) <==> (if k >= 3 then k - 2 else 1) <= x <= k
    ensures k == 6 ==> ApplySaves(map[], saves).Keys == {4, 5, 6}
  {
    assert Contiguous(saves);
    RetentionWindow(map[], saves);
  }

  /** A mid-epoch save followed by the end-of-epoch save of the same epoch leaves the same
      store as the end-of-epoch save alone. */
  lemma MidThenEndSave(dirs: map<int, CheckpointDir>, epoch: int, m1: StateDict, o1: StateDict, m2: StateDict, o2: StateDict)
    ensures AfterSave(AfterSave(dirs, epoch, m1, o1), epoch, m2, o2) == AfterSave(dirs, epoch, m2, o2)
  {
  }

  /** A directory written by `save_model` passes the resume check and reads back what was written. */
  lemma SavedCheckpointResumes(dirs: map<int, CheckpointDir>, epoch: int, model: StateDict, optimizer: StateDict)
    ensures LoadForResume(AfterSave(dirs, epoch, model, optimizer)[epoch]) == Ok((model, optimizer))
    ensures LoadModelParams(AfterSave(dirs, epoch, model, optimizer)[epoch]) == Ok(model)
  {
  }
}
