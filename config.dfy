/** The trainer's configuration checks and the `evaluate` and `export` flows built on them. */
module Config {
  import opened Failures
  import opened Checkpoints
  import opened Evaluation

  /** The two network variants `use_model` may name. */
  datatype ModelKind = DeepSpeech2 | DeepSpeech2Light

  /** The `if / elif / else raise` on `use_model` that `train`, `evaluate` and `export` share. */
  function ParseModel(name: string): (r: Result<ModelKind>)
    ensures r == Ok(DeepSpeech2) <==> name == "deepspeech2"
    ensures r == Ok(DeepSpeech2Light) <==> name == "deepspeech2_light"
    ensures r.Err? <==> name != "deepspeech2" && name != "deepspeech2_light"
    ensures r.Err? ==> r.error == UnknownModel(name)
  {
    if name == "deepspeech2" then Ok(DeepSpeech2)
    else if name == "deepspeech2_light" then Ok(DeepSpeech2Light)
    else Err(UnknownModel(name))
  }

  /** What `decoder_result` ends up calling: the greedy decoder, the beam-search decoder object, or a
      name that was never bound because the object was only built for `ctc_beam_search`. */
  datatype DecoderChoice = Greedy | BeamSearch | Unbound

  /** The decoder set-up of `evaluate`: `ctc_beam_search` needs the ctc_decoders library; `ctc_greedy`
      decodes greedily; any other name takes the beam-search branch without a decoder object. */
  function ChooseDecoder(decoder: string, beamSearchInstalled: bool): (r: Result<DecoderChoice>)
    ensures r.Err? <==> decoder == "ctc_beam_search" && !beamSearchInstalled
    ensures r.Err? ==> r.error == BeamSearchUnavailable
    ensures r == Ok(Greedy) <==> decoder == "ctc_greedy"
    ensures r == Ok(BeamSearch) <==> decoder == "ctc_beam_search" && beamSearchInstalled
    ensures r == Ok(Unbound) <==> decoder != "ctc_greedy" && decoder != "ctc_beam_search"
  {
    if decoder == "ctc_beam_search" then (if beamSearchInstalled then Ok(BeamSearch) else Err(BeamSearchUnavailable))
    else if decoder == "ctc_greedy" then Ok(Greedy)
    else Ok(Unbound)
  }

  /** `evaluate`: check the model name, require `model.pdparams`, set up the decoder, then decode the
      test batches and average `cer / len(label)` over every sample. The decoded distances are inputs;
      an unbound decoder fails at the first batch, so an empty loader reaches the final division instead. */
  method Evaluate(useModel: string, resume: CheckpointDir, decoder: string, beamSearchInstalled: bool,
                  batches: seq<seq<Sample>>) returns (r: Result<real>)
    ensures ParseModel(useModel).Err? ==> r == Err(UnknownModel(useModel))
    ensures ParseModel(useModel).Ok? && resume.model.None? ==> r == Err(MissingModelParams)
    ensures ParseModel(useModel).Ok? && resume.model.Some? && ChooseDecoder(decoder, beamSearchInstalled).Err?
      ==> r == Err(BeamSearchUnavailable)
    ensures (ParseModel(useModel).Ok? && resume.model.Some? && ChooseDecoder(decoder, beamSearchInstalled) == Ok(Unbound)
             && batches != [])
      ==> r == Err(UndefinedBeamDecoder(decoder))
    ensures (ParseModel(useModel).Ok? && resume.model.Some? && ChooseDecoder(decoder, beamSearchInstalled).Ok?
             && (ChooseDecoder(decoder, beamSearchInstalled) != Ok(Unbound) || batches == []))
      ==> (&& (r.Ok? <==> LabelsPositive(batches) && exists k :: 0 <= k < |batches| && batches[k] != [])
           && (r.Err? ==> r.error == DivisionByZero)
           && (r.Ok? ==> r.value == Mean(AllRatios(batches))))
  {
    var kind := ParseModel(useModel);
    if kind.Err? {
      return Err(kind.error);
    }
    var params := LoadModelParams(resume);
    if params.Err? {
      return Err(params.error);
    }
    var choice := ChooseDecoder(decoder, beamSearchInstalled);
    if choice.Err? {
      return Err(choice.error);
    }
    var c: seq<real> := [];
    var i := 0;
    while i < |batches|
      invariant 0 <= i <= |batches|
      invariant LabelsPositive(batches[..i]) && c == AllRatios(batches[..i])
      invariant i > 0 ==> choice.value != Unbound
    {
      if choice.value == Unbound {
        return Err(UndefinedBeamDecoder(decoder));
      }
      var next := AppendRatios(c, batches[i]);
      if next.None? {
        assert !LabelsPositive(batches);
        return Err(DivisionByZero);
      }
      RatiosPrefixStep(batches, i);
      c := next.value;
      i := i + 1;
    }
    assert batches[..i] == batches;
    if c == [] {
      return Err(DivisionByZero);
    }
    r := Ok(Mean(c));
  }

  /** Extending the batches seen by one appends that batch's ratios. */
  lemma RatiosPrefixStep(batches: seq<seq<Sample>>, i: nat)
    requires i < |batches| && LabelsPositive(batches[..i])
    requires forall m :: 0 <= m < |batches[i]| ==> batches[i][m].labelLength > 0
    ensures LabelsPositive(batches[..i + 1])
    ensures AllRatios(batches[..i + 1]) == AllRatios(batches[..i]) + BatchRatios(batches[i])
  {
    assert batches[..i + 1][..i] == batches[..i];
  }

  /** One layer of the exported inference model. */
  datatype Stage = Normalizer | Mask | Network(kind: ModelKind, params: StateDict) | Softmax

  /** `export`: check the model name, require `model.pdparams`, then wrap the restored network between
      the feature normaliser and mask in front and a softmax behind. */
  function Export(useModel: string, resume: CheckpointDir): (r: Result<seq<Stage>>)
    ensures ParseModel(useModel).Err? ==> r == Err(UnknownModel(useModel))
    ensures ParseModel(useModel).Ok? && resume.model.None? ==> r == Err(MissingModelParams)
    ensures r.Ok? <==> ParseModel(useModel).Ok? && resume.model.Some?
    ensures r.Ok? ==> (&& |r.value| == 4 && r.value[0] == Normalizer && r.value[1] == Mask && r.value[3] == Softmax
                       && r.value[2] == Network(ParseModel(useModel).value, resume.model.value))
  {
    match ParseModel(useModel)
    case Err(e) => Err(e)
    case Ok(kind) =>
      match LoadModelParams(resume)
      case Err(e) => Err(e)
      case Ok(params) => Ok([Normalizer, Mask, Network(kind, params), Softmax])
  }
}
