/** Loading pretrained weights into `train`'s model: drop the loaded tensors whose shape does not fit,
    report the parameters the file lacks, then let `set_dict` take what is left. */
module Pretrained {
  import opened Checkpoints

  /** A line the filter prints: a loaded tensor dropped for its shape, or a model parameter absent from the file. */
  datatype Report =
    | NotUsed(name: string, loadedShape: seq<nat>, modelShape: seq<nat>)
    | LackWeight(name: string)

  /** The model's `state_dict().items()` in iteration order; a dictionary never repeats a name. */
  ghost predicate DistinctNames(items: seq<(string, Tensor)>)
  {
    forall i, j :: 0 <= i < j < |items| ==> items[i].0 != items[j].0
  }

  /** The names the model and the loaded file both hold, with different shapes. */
  ghost function Mismatched(items: seq<(string, Tensor)>, loaded: StateDict): set<string>
  {
    set i | 0 <= i < |items| && items[i].0 in loaded && items[i].1.shape != loaded[items[i].0].shape :: items[i].0
  }

  /** What the filter prints about one model parameter. */
  function ReportFor(item: (string, Tensor), loaded: StateDict): seq<Report>
  {
    if item.0 !in loaded then [LackWeight(item.0)]
    else if item.1.shape != loaded[item.0].shape then [NotUsed(item.0, loaded[item.0].shape, item.1.shape)]
    else []
  }

  /** The printed lines, in the model's parameter order. */
  function Reports(items: seq<(string, Tensor)>, loaded: StateDict): (r: seq<Report>)
    ensures |r| <= |items|
    ensures forall k :: 0 <= k < |r| ==> HasParam(items, r[k].name)
  {
    if items == [] then [] else Reports(items[..|items| - 1], loaded) + ReportFor(items[|items| - 1], loaded)
  }

  /** The loop over `model_dict.items()`: pop every loaded tensor whose shape differs from the model's,
      print `not used` for it and `Lack weight` for each parameter the file does not hold. */
  method FilterPretrained(items: seq<(string, Tensor)>, loaded: StateDict) returns (kept: StateDict, reports: seq<Report>)
    requires DistinctNames(items)
    ensures kept == loaded - Mismatched(items, loaded)
    ensures reports == Reports(items, loaded)
  {
    kept := loaded;
    reports := [];
    var i := 0;
    while i < |items|
      invariant 0 <= i <= |items|
      invariant kept == loaded - Mismatched(items[..i], loaded)
      invariant reports == Reports(items[..i], loaded)
    {
      var (name, weight) := items[i];
      ghost var popped, popped' := Mismatched(items[..i], loaded), Mismatched(items[..i + 1], loaded);
      MismatchedStep(items, i, loaded);
      assert name in kept <==> name in loaded by {
        NotYetSeen(items, i, loaded);
      }
      if name in kept {
        if weight.shape != kept[name].shape {
          reports := reports + [NotUsed(name, kept[name].shape, weight.shape)];
          assert popped' == popped + {name};
          RemoveOneMore(loaded, popped, name);
          kept := kept - {name};
        } else {
          assert popped' == popped;
        }
      } else {
        assert popped' == popped;
        reports := reports + [LackWeight(name)];
      }
      assert items[..i + 1][..i] == items[..i];
      i := i + 1;
    }
    assert items[..i] == items;
  }

  /** With distinct names, the parameter at `i` cannot have been popped by an earlier one. */
  lemma NotYetSeen(items: seq<(string, Tensor)>, i: nat, loaded: StateDict)
    requires DistinctNames(items) && i < |items|
    ensures items[i].0 !in Mismatched(items[..i], loaded)
  {
  }

  lemma RemoveOneMore(m: StateDict, s: set<string>, name: string)
    ensures (m - s) - {name} == m - (s + {name})
  {
  }

  lemma MismatchedStep(items: seq<(string, Tensor)>, i: nat, loaded: StateDict)
    requires i < |items|
    ensures Mismatched(items[..i + 1], loaded) ==
      Mismatched(items[..i], loaded) + (if items[i].0 in loaded && items[i].1.shape != loaded[items[i].0].shape then {items[i].0} else {})
  {
    assert forall j :: 0 <= j < i ==> items[..i + 1][j] == items[..i][j];
    assert items[..i + 1][i] == items[i];
  }

  /** `model.set_dict(d)`: every model parameter that `d` holds with the same shape takes `d`'s tensor;
      the others keep their value, and names of `d` the model lacks are ignored. */
  function SetDict(current: StateDict, d: StateDict): (r: StateDict)
    ensures r.Keys == current.Keys
    ensures forall n :: n in r ==> r[n].shape == current[n].shape
  {
    map n | n in current :: if n in d && d[n].shape == current[n].shape then d[n] else current[n]
  }

  /** The model's parameters as a dictionary. */
  function AsDict(items: seq<(string, Tensor)>): (r: StateDict)
    requires DistinctNames(items)
    ensures r.Keys == set i | 0 <= i < |items| :: items[i].0
    ensures forall i :: 0 <= i < |items| ==> r[items[i].0] == items[i].1
  {
    map i | 0 <= i < |items| :: items[i].0 := items[i].1
  }

  /** After the filter, `set_dict` gives each parameter the loaded tensor exactly when the file holds
      it with the parameter's shape, and keeps the parameter's own tensor otherwise. */
  lemma PretrainedLoad(items: seq<(string, Tensor)>, loaded: StateDict, kept: StateDict)
    requires DistinctNames(items)
    requires kept == loaded - Mismatched(items, loaded)
    ensures var before := AsDict(items); var after := SetDict(before, kept);
      forall i :: 0 <= i < |items| ==>
        after[items[i].0] == (if items[i].0 in loaded && loaded[items[i].0].shape == items[i].1.shape then loaded[items[i].0] else items[i].1)
  {
  }

  /** A loaded tensor the model has no parameter for survives the filter, and so does every tensor
      whose shape fits. */
  lemma FilterKeeps(items: seq<(string, Tensor)>, loaded: StateDict, kept: StateDict, n: string)
    requires kept == loaded - Mismatched(items, loaded)
    requires n in loaded
    requires forall i :: 0 <= i < |items| && items[i].0 == n ==> items[i].1.shape == loaded[n].shape
    ensures n in kept
  {
  }

  /** The model has a parameter called `n`. */
  ghost predicate HasParam(items: seq<(string, Tensor)>, n: string)
  {
    exists i :: 0 <= i < |items| && items[i].0 == n
  }

  /** Exactly the parameters the file lacks are reported as lacking, and none of them is an error. */
  lemma {:induction false} LackingReported(items: seq<(string, Tensor)>, loaded: StateDict)
    ensures forall n :: LackWeight(n) in Reports(items, loaded) <==> n !in loaded && HasParam(items, n)
    decreases |items|
  {
    if items != [] {
      var init, last := items[..|items| - 1], items[|items| - 1];
      LackingReported(init, loaded);
      forall n
        ensures HasParam(items, n) <==> HasParam(init, n) || last.0 == n
      {
        if HasParam(items, n) {
          var i :| 0 <= i < |items| && items[i].0 == n;
          if i < |init| { assert init[i].0 == n; }
        }
        if HasParam(init, n) {
          var i :| 0 <= i < |init| && init[i].0 == n;
          assert items[i].0 == n;
        }
      }
    }
  }

  /** Exactly the names the filter pops are reported as not used, each line with the loaded shape and
      the shape of the model parameter of that name, which differ. */
  lemma {:induction false} NotUsedReported(items: seq<(string, Tensor)>, loaded: StateDict)
    ensures forall n :: (exists a, b :: NotUsed(n, a, b) in Reports(items, loaded)) <==> n in Mismatched(items, loaded)
    ensures forall n, a, b :: NotUsed(n, a, b) in Reports(items, loaded) ==>
      n in loaded && a == loaded[n].shape && a != b && exists i :: 0 <= i < |items| && items[i].0 == n && items[i].1.shape == b
    decreases |items|
  {
    if items != [] {
      var init, last := items[..|items| - 1], items[|items| - 1];
      NotUsedReported(init, loaded);
      MismatchedStep(items, |items| - 1, loaded);
      assert items[..|items|] == items;
      assert Reports(items, loaded) == Reports(init, loaded) + ReportFor(last, loaded);
      forall n, a, b | NotUsed(n, a, b) in Reports(items, loaded)
        ensures n in loaded && a == loaded[n].shape && a != b && exists i :: 0 <= i < |items| && items[i].0 == n && items[i].1.shape == b
      {
        if NotUsed(n, a, b) in Reports(init, loaded) {
          var i :| 0 <= i < |init| && init[i].0 == n && init[i].1.shape == b;
          assert items[i] == init[i];
        } else {
          assert items[|items| - 1] == last;
        }
      }
      forall n | n in Mismatched(items, loaded)
        ensures exists a, b :: NotUsed(n, a, b) in Reports(items, loaded)
      {
        if n !in Mismatched(init, loaded) {
          assert NotUsed(n, loaded[n].shape, last.1.shape) in ReportFor(last, loaded);
        }
      }
    }
  }

  /** A resume that restores every parameter with its own shape overrides whatever the pretrained load
      left: the model ends as if the pretrained weights had never been loaded. */
  lemma ResumeOverridesPretrained(current: StateDict, pretrained: StateDict, resumed: StateDict)
    requires forall n :: n in current ==> n in resumed && resumed[n].shape == current[n].shape
    ensures SetDict(SetDict(current, pretrained), resumed) == SetDict(current, resumed)
    ensures forall n :: n in current ==> SetDict(SetDict(current, pretrained), resumed)[n] == resumed[n]
  {
  }
}
