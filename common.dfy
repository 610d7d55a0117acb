/** Shared vocabulary of the training-input loader: optional values, results,
    numpy element-type tags and the error conditions the loader can raise. */
module Common {

  datatype Option<+T> = None | Some(value: T)

  datatype Result<+T, +E> = Ok(value: T) | Err(error: E)

  /** The element type of a numeric array. Only `Float64` is accepted by a
      training sample; every other dtype is kept by name for the error text. */
  datatype DType = Float64 | OtherDType(name: string)

  /** The exceptions the loader lets escape (they are never caught). */
  datatype Error =
    | KeyError(key: string)              // a missing dataset, attribute or table
    | UnknownFeature(feature: string)    // DataScaler.get_params on an absent name
    | FieldNotInType(field: string)      // selecting a field the record table lacks
    | DuplicateField(field: string)      // selecting the same field twice
    | DTypeMismatch(found: DType)        // Sample data that is not float64
    | InvalidLabel(sample: string, classLabel: int)  // Sample class label below zero

  /** No element occurs twice. */
  predicate Unique<T(==)>(s: seq<T>) {
    forall i, j :: 0 <= i < j < |s| ==> s[i] != s[j]
  }
}
