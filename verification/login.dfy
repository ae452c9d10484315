/** The login form: edits with per-field error clearing, and the submit flow through `authService.login`. */
module Login {
  import opened Wrappers
  import Js
  import Api

  class LoginForm {
    var formData: map<string, string>
    var errors: Js.Errors
    var loading: bool

    constructor ()
      ensures formData == map["email" := "", "password" := ""] && errors == Js.NoErrors && !loading
    {
      formData := map["email" := "", "password" := ""];
      errors := Js.NoErrors;
      loading := false;
    }

    /** An input changed: only that field takes the new text, and only its error is cleared. */
    method HandleChange(name: string, value: string)
      modifies this`formData, this`errors
      ensures formData == old(formData)[name := value]
      ensures errors == Js.ClearFieldError(old(errors), name)
    {
      formData := formData[name := value];
      errors := Js.ClearFieldError(errors, name);
    }

    /** The state while the request is in flight: loading, no errors. */
    method StartSubmit()
      modifies this`loading, this`errors
      ensures loading && errors == Js.NoErrors
    {
      loading := true;
      errors := Js.NoErrors;
    }

    /**
     * Submitting the credentials, given what `POST /login` produced: on success the session
     * is stored (when a token came back) and `onLoginSuccess` is called; on failure the
     * server's field errors, or its message, or 'Login failed' are shown. Loading ends on
     * every path.
     * `successThrew` says whether `onLoginSuccess` threw; being called inside the `try`, its error
     * is caught like a failed request without a response.
     */
    method HandleSubmit(storage: Api.AuthStorage, outcome: Result<Api.Body, Js.ApiError>, successThrew: bool)
      returns (loginSucceeded: bool)
      modifies this, storage
      ensures !loading && formData == old(formData)
      ensures loginSucceeded <==> outcome.Ok?
      ensures outcome.Ok? ==> storage.items == Api.SessionAfter(old(storage.items), outcome.value)
      ensures outcome.Ok? && !successThrew ==> errors == Js.NoErrors
      ensures outcome.Ok? && successThrew ==> errors == Js.Fields(map["submit" := Js.Message("Login failed")])
      ensures outcome.Err? ==>
                && errors == Js.FailureErrors(outcome.error, "Login failed")
                && storage.items == Api.AfterRejection(old(storage.items), outcome.error)
    {
      StartSubmit();
      var r := storage.Login(outcome);
      match r {
        case Ok(_) =>
          loginSucceeded := true;
          if successThrew {
            errors := Js.FailureErrors(Js.ApiError(None), "Login failed");
          }
        case Err(err) =>
          errors := Js.FailureErrors(err, "Login failed");
          loginSucceeded := false;
      }
      loading := false;
    }
  }
}
