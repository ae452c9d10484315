/** The registration form: edits with per-field error clearing, and the submit flow through `authService.register`. */
module Register {
  import opened Wrappers
  import Js
  import Api

  class RegisterForm {
    var formData: map<string, string>
    var errors: Js.Errors
    var loading: bool

    constructor ()
      ensures formData == map["name" := "", "email" := "", "password" := "", "password_confirmation" := ""] && errors == Js.NoErrors && !loading
    {
      formData := map["name" := "", "email" := "", "password" := "", "password_confirmation" := ""];
      errors := Js.NoErrors;
      loading := false;
    }

    /** An input changed: only that field takes the new text, and only its error is cleared. */
    method HandleChange(name: string, value: string)
      modifies this`formData, this`errors
      ensures formData == old(formData)[name := value]
      ensures errors == Js.ClearFieldError(old(errors), name)
    {
      formData := formData[name := value];
      errors := Js.ClearFieldError(errors, name);
    }

    /** The state while the request is in flight: loading, no errors. */
    method StartSubmit()
      modifies this`loading, this`errors
      ensures loading && errors == Js.NoErrors
    {
      loading := true;
      errors := Js.NoErrors;
    }

    /**
     * Submitting the registration, given what `POST /register` produced: on success the session
     * is stored (when a token came back) and `onRegisterSuccess` is called; on failure the
     * server's field errors, or its message, or 'Registration failed' are shown. Loading ends on
     * every path.
     * `successThrew` says whether `onRegisterSuccess` threw; being called inside the `try`, its error
     * is caught like a failed request without a response.
     */
    method HandleSubmit(storage: Api.AuthStorage, outcome: Result<Api.Body, Js.ApiError>, successThrew: bool)
      returns (registerSucceeded: bool)
      modifies this, storage
      ensures !loading && formData == old(formData)
      ensures registerSucceeded <==> outcome.Ok?
      ensures outcome.Ok? ==> storage.items == Api.SessionAfter(old(storage.items), outcome.value)
      ensures outcome.Ok? && !successThrew ==> errors == Js.NoErrors
      ensures outcome.Ok? && successThrew ==> errors == Js.Fields(map["submit" := Js.Message("Registration failed")])
      ensures outcome.Err? ==>
                && errors == Js.FailureErrors(outcome.error, "Registration failed")
                && storage.items == Api.AfterRejection(old(storage.items), outcome.error)
    {
      StartSubmit();
      var r := storage.Register(outcome);
      match r {
        case Ok(_) =>
          registerSucceeded := true;
          if successThrew {
            errors := Js.FailureErrors(Js.ApiError(None), "Registration failed");
          }
        case Err(err) =>
          errors := Js.FailureErrors(err, "Registration failed");
          registerSucceeded := false;
      }
      loading := false;
    }
  }
}
