/** Error taxonomy of the customer domain layer.

    The Java code signals failures with exceptions; here each one is a value
    of `Error`, carried by `Result`. A `NotFound` error is a specialisation of
    the generic domain error, just as `NotFoundException` extends
    `DomainException`. */
module DomainErrors {

  /** `null` of the source, for optional inputs. */
  datatype Option<+T> = None | Some(value: T)

  /** The exception classes that the domain layer throws. */
  datatype ErrorKind =
    | NullId           // NullPointerException from the builder
    | IllegalArgument  // IllegalArgumentException for a blank name
    | InvalidEmail     // InvalidEmailException
    | InvalidCpf       // InvalidCpfException
    | Domain           // DomainException (business rule, e.g. duplicate CPF)
    | NotFound         // NotFoundException, a subclass of DomainException

  /** An exception: its class and its message. */
  datatype Error = Error(kind: ErrorKind, message: string)

  datatype Result<+T> = Ok(value: T) | Err(error: Error)

  /** The error every lookup raises when nothing is stored under the key. */
  const RecordNotFound: Error := Error(NotFound, "Record not found")

  /** `e instanceof DomainException`. */
  predicate IsDomainError(e: Error): (r: bool)
    ensures e.kind == NotFound ==> r
    ensures e.kind == Domain ==> r
    ensures r ==> e.kind != NullId && e.kind != IllegalArgument
  {
    e.kind == Domain || e.kind == NotFound
  }

  /** A not-found error is a domain error, and so is the lookup error. */
  lemma NotFoundIsDomainError(e: Error)
    requires e.kind == NotFound
    ensures IsDomainError(e) && IsDomainError(RecordNotFound)
  {
  }
}
