/** What a call into the validation engine can produce: a result, or one of
    the exceptions the request classes either catch or let through. */
module Outcomes {
  import opened PhpArrays

  datatype Option<+T> = None | Some(value: T) {
    function GetOr(default: T): T {
      match this
      case Some(v) => v
      case None => default
    }
  }

  /** ValidationException::errors(): attribute => list of messages. */
  type ErrorBag = map<string, seq<string>>

  /** The exceptions that can leave a validation call. */
  datatype Failure =
    | ValidationFailed(errors: ErrorBag)  // ValidationException
    | GenericException(message: string)   // any other exception, by message
    | CallOnNull(member: string)          // PHP Error: member call on null
    | NonStaticCall(member: string)       // PHP Error: instance method called statically

  datatype Result<+T> = Ok(value: T) | Err(failure: Failure)

  /** The validation service the traits evidently mean by
      Validation::validate($data, $rules, $messages, $customAttributes): the
      validated data, or the exception it throws. */
  type ValidateFn = (PhpArray, PhpArray, PhpArray, PhpArray) -> Result<PhpArray>

  /** The Error PHP 8 raises for Validation::validate(...): validate is an
      instance method of Validation, so the static call fails before any
      validation runs. */
  const StaticCallError: Failure := NonStaticCall("Validation::validate")

  /** Validation::validate as the traits write it: every call raises
      StaticCallError, whatever the arguments. */
  const StaticValidateAsWritten: ValidateFn := (data, rules, messages, attributes) => Err(StaticCallError)
}
