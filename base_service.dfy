/**
 * The BaseService convention shared by every service: a validity flag that
 * starts as nil and is set by `call`, and an `errors` record that stays nil
 * until `set_errors` replaces it. Each service owns one ServiceState.
 */
module BaseService {
  import opened Wrappers
  import opened Errors

  class ServiceState {
    /** `self.class.name` of the owning service. */
    const reference: string
    var valid: Option<bool>
    var errors: Option<ServiceError>

    constructor (reference: string)
      ensures this.reference == reference
      ensures valid == None && errors == None
    {
      this.reference := reference;
      valid := None;
      errors := None;
    }

    /** `set_as_valid!`: validity becomes true; errors are left as they are. */
    method SetAsValid()
      modifies this`valid
      ensures valid == Some(true)
    {
      valid := Some(true);
    }

    /** `set_as_invalid!`: validity becomes false; errors are left as they are. */
    method SetAsInvalid()
      modifies this`valid
      ensures valid == Some(false)
    {
      valid := Some(false);
    }

    /** `set_errors(code, message)`: errors become the record naming this
        service; validity is left as it is. */
    method SetErrors(code: Code, message: string)
      modifies this`errors
      ensures errors == Some(ServiceError(reference, code, message))
    {
      errors := Some(ServiceError(reference, code, message));
    }

    /** The `rescue` branch of every `call`: invalid, then the error recorded. */
    method Fail(e: Custom)
      modifies this
      ensures valid == Some(false)
      ensures errors == Some(ServiceError(reference, e.code, e.message))
    {
      SetAsInvalid();
      SetErrors(e.code, e.message);
    }
  }
}
