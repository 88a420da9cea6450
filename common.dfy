/** Identifiers, request arguments and the error shapes shared by the models and controllers. */
module Common {

  /** A document identifier (a MongoDB ObjectId). Ids are compared by equality only. */
  type Id = nat

  /** An identifier as it arrives in a request body or from the authenticated caller:
      missing (falsy), present but not a well-formed ObjectId, or a well-formed id. */
  datatype IdArg = Absent | Malformed | Given(id: Id)

  datatype Option<+T> = None | Some(value: T)

  /** A thrown `BadRequestError`: its HTTP code and its message. The review controller throws
      without a code, which leaves the error's default; that default is written `None` here. */
  datatype Failure = Failure(code: Option<nat>, message: string)

  /** A failure that carries an explicit HTTP code. */
  function Coded(code: nat, message: string): Failure
  {
    Failure(Some(code), message)
  }

  /** A failure thrown without a code. */
  function Uncoded(message: string): Failure
  {
    Failure(None, message)
  }

  /** How a handler or a document method ends: normally, or by throwing. */
  datatype Outcome = Pass | Fail(error: Failure)

  /** How a handler that creates a document ends: with the new document's id, or by throwing. */
  datatype Result<+T> = Ok(value: T) | Err(error: Failure)
}
