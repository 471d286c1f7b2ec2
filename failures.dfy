/** Option and Result wrappers, and the exceptions the trainer can raise. */
module Failures {

  datatype Option<+T> = None | Some(value: T)

  /** Why a trainer operation stopped with an exception instead of a value. */
  datatype Error =
    | UnknownModel(name: string)          // `use_model` is not one of the two variants
    | MissingModelParams                  // `model.pdparams` absent from a checkpoint directory
    | MissingOptimizerState               // `optimizer.pdopt` absent from a resume directory
    | NoEpochInResumePath(path: string)   // `re.findall(r'\d+', path)[-1]` raised IndexError
    | BeamSearchUnavailable               // the ctc_decoders library is not installed
    | UndefinedBeamDecoder(name: string)  // beam branch taken without a beam-search decoder object
    | DivisionByZero                      // an empty label or an empty list of per-sample / per-batch values

  datatype Result<+T> = Ok(value: T) | Err(error: Error)
}
