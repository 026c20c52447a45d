/** Shared vocabulary: identifiers, optional values and the error kinds the
    two store generations raise. */
module Common {

  /** A UUID. Only equality matters to the store, so any countable type will do. */
  type Uuid = nat

  datatype Option<+T> = None | Some(value: T)

  /** The exceptions of the store, by kind.
      - NotLoaded: reading an aggregate-context slot that holds nothing (ValueError).
      - InvalidValue: a validation rule fails (ValueError, pydantic's ValidationError).
      - NotExist: an id lookup that must succeed found nothing (QABaseNotExist).
      - Mismatch: two linked records disagree on their Base (AssertionError in
        qastorage's `get_or_create_qa`, QABasesDoNotMatch in storage's group lookup by id).
      - AnswerValidation: an answer does not fit its group (QAAnswerValidation). */
  datatype Error = NotLoaded | InvalidValue | NotExist | Mismatch | AnswerValidation

  datatype Result<+T> = Ok(value: T) | Err(error: Error)

  /** The result of an operation that returns nothing but may raise. */
  datatype Outcome = Pass | Fail(error: Error)

  /** Running a validation for its effect only: its value is dropped, its error kept. */
  function Check<T>(r: Result<T>): (o: Outcome)
    ensures o.Pass? <==> r.Ok?
    ensures o.Fail? ==> o.error == r.error
  {
    if r.Ok? then Pass else Fail(r.error)
  }
}
