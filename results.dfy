/** The outcome of an operation that Python either completes or abandons by raising an exception. */
module Results {

  datatype Result<+T, +E> = Success(value: T) | Failure(error: E)

}
