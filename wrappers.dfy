/** Option, Result and the failures the analysis can raise. */
module Wrappers {

  datatype Option<T> = None | Some(value: T)

  /** Why processing of a dataset stops. */
  datatype Error =
    | MissingStitchedList          // stitched_list is null or empty at construction
    | MissingTag                   // tag is null or empty at construction
    | MissingXsecs                 // a cross-section table is needed (non-Data mode) but absent
    | VariationIndexError          // the variation name has too few '_'-separated parts
    | VariationUnbound             // a part of the variation name is not recognised (mask or sf never bound)
    | BadMassSuffix(suffix: string) // the HNL mass suffix of the dataset is not an integer

  datatype Result<T> = Ok(value: T) | Err(error: Error)

  /** Success or failure of an operation that only changes state. */
  datatype Outcome = Pass | Fail(error: Error)
}
