/**
 * Shared result types and the errors the adapters raise.
 */
module Common {

  datatype Option<+T> = None | Some(value: T)

  datatype Result<+T> = Ok(value: T) | Err(error: Error)

  /** The exceptions raised by the adapters, by cause. */
  datatype Error =
    /** TypeError "Please pass one of <keys> for `<argument>`." */
    | UnknownName(argument: string, valid: set<string>)
    /** TypeError raised by Python when a keyword is passed twice to one call. */
    | DuplicateKeyword(keyword: string)
    /** ValueError: the requested horizon exceeds the fitted horizon length. */
    | HorizonExceeded(horizonLen: int)
    /** ValueError / IndexError from `max()` or `[0]` / `[-1]` on an empty sequence. */
    | EmptySequence
    /** AssertionError "All series must has the same index". */
    | IndexMismatch
    /** ValueError from pandas: index and values of different lengths. */
    | LengthMismatch
    /** RuntimeError from concatenating an empty list of tensors. */
    | EmptyConcat
    /** RuntimeError / ValueError from tensors or arrays of incompatible shapes. */
    | ShapeMismatch
    /** AttributeError: an attribute read that was never assigned. */
    | MissingAttribute(attribute: string)
    /** IndexError from indexing past the end of a list or array. */
    | IndexOutOfRange
    /** AssertionError: `flag` is not one of "train", "val", "test". */
    | InvalidFlag(flag: string)
    /** ValueError from the data loader: the batch size is not positive. */
    | InvalidBatchSize
    /** ValueError from a shuffling data loader's random sampler: the dataset has no items. */
    | EmptyDataset
    /** NotFittedError: `predict` called before `fit`. */
    | NotFitted
    /** TypeError from `max(x)` with a single argument that is not a sequence. */
    | NotIterable

  /** Python truthiness of an optional string: None and "" are falsy. */
  predicate Truthy(s: Option<string>) {
    s.Some? && s.value != ""
  }

  /** Python truthiness of an optional keyword dictionary: None and {} are falsy. */
  predicate TruthyMap<V>(m: Option<map<string, V>>) {
    m.Some? && |m.value| > 0
  }
}
