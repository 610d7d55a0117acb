/** A training sample: a name, a validated class label and a float64 feature
    matrix, fixed at construction and only read afterwards. */
module Samples {
  import opened Common
  import opened Records

  /** The checks a sample's arguments must pass, in the order they are made:
      the element type first, then the label. */
  function SampleError(name: string, classLabel: int, inputData: NDArray): Option<Error> {
    if inputData.dtype != Float64 then Some(DTypeMismatch(inputData.dtype))
    else if classLabel < 0 then Some(InvalidLabel(name, classLabel))
    else None
  }

  class Sample {
    const name: string
    const classLabel: int
    const inputData: NDArray

    /** What every sample satisfies: float64 data and a non-negative label. */
    predicate Valid() {
      inputData.dtype == Float64 && classLabel >= 0
    }

    /** The object itself, for arguments that have passed the checks; callers
        that have not checked them go through `Create`. */
    constructor (name: string, classLabel: int, inputData: NDArray)
      requires SampleError(name, classLabel, inputData) == None
      ensures this.name == name && this.classLabel == classLabel && this.inputData == inputData
      ensures Valid()
    {
      this.name := name;
      this.classLabel := classLabel;
      this.inputData := inputData;
    }

    /** The validating construction: a non-float64 matrix is refused whatever
        the label, then a negative label is refused; otherwise the new sample
        reads back exactly its arguments. */
    static method Create(name: string, classLabel: int, inputData: NDArray) returns (r: Result<Sample, Error>)
      ensures r.Ok? <==> inputData.dtype == Float64 && classLabel >= 0
      ensures inputData.dtype != Float64 ==> r == Err(DTypeMismatch(inputData.dtype))
      ensures inputData.dtype == Float64 && classLabel < 0 ==> r == Err(InvalidLabel(name, classLabel))
      ensures r.Ok? ==> r.value.Valid()
      ensures r.Ok? ==> r.value.Name() == name && r.value.ClassLabel() == classLabel && r.value.Data() == inputData
      ensures r.Err? ==> SampleError(name, classLabel, inputData) == Some(r.error)
    {
      match SampleError(name, classLabel, inputData)
      case Some(e) =>
        r := Err(e);
      case None =>
        var s := new Sample(name, classLabel, inputData);
        r := Ok(s);
    }

    function Name(): string {
      name
    }

    function ClassLabel(): int {
      classLabel
    }

    function Data(): NDArray {
      inputData
    }
  }
}
