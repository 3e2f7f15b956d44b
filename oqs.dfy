/** The pieces of the crate root that kem.rs relies on: the byte type, the
    error taxonomy, the crate's `Result`, and the translation of a native
    status code into a `Result`. */
module Oqs {

  /** Rust's `u8`. */
  newtype u8 = b: int | 0 <= b < 0x100

  datatype Option<+T> = None | Some(value: T)

  /** The errors a KEM operation can report. */
  datatype Error =
    | AlgorithmDisabled   // the linked native build does not provide the algorithm
    | InvalidLength       // a caller-supplied buffer does not have its declared length
    | OperationFailed     // a native call returned a non-success status

  /** The crate's `Result<T>`, failure-compatible so that `:-` plays Rust's `?`. */
  datatype Result<+T> = Success(value: T) | Failure(error: Error) {
    predicate IsFailure() { Failure? }

    function PropagateFailure<U>(): Result<U>
      requires Failure?
    {
      Failure(error)
    }

    function Extract(): T
      requires Success?
    {
      value
    }
  }

  /** `OQS_STATUS`: a native integer status with no structure beyond
      "success" (zero) and "failure" (anything else). */
  type Status = int

  const OQS_SUCCESS: Status := 0

  /** `status_to_result`: success exactly for `OQS_SUCCESS`; every other status
      becomes `OperationFailed`. */
  function StatusToResult(status: Status): (r: Result<()>)
    ensures r.Success? <==> status == OQS_SUCCESS
    ensures r.Failure? ==> r.error == OperationFailed
  {
    if status == OQS_SUCCESS then Success(()) else Failure(OperationFailed)
  }
}
