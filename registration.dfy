/**
 * The checks the `/register` route of app.py makes on a posted form before it
 * touches the user database. A form field that was not posted reads as `None`.
 */
module Registration {
  import opened Wrappers

  datatype Form = Form(username: Option<string>, email: Option<string>,
                       password: Option<string>, confirmPassword: Option<string>)

  /** Which flash message the checks produce, or that the form goes on to the database. */
  datatype Verdict = MissingField | PasswordMismatch | PasswordTooShort | Accepted

  /** Python truthiness of an optional form value: absent or empty is false. */
  predicate Given(v: Option<string>) {
    v.Some? && v.value != []
  }

  /** The three checks in source order; the first one that fails decides. */
  function Validate(f: Form): (v: Verdict)
    ensures v == MissingField <==> !Given(f.username) || !Given(f.email) || !Given(f.password)
    ensures v == PasswordMismatch <==>
              Given(f.username) && Given(f.email) && Given(f.password) && f.password != f.confirmPassword
    ensures v == PasswordTooShort <==>
              Given(f.username) && Given(f.email) && Given(f.password) && f.password == f.confirmPassword &&
              |f.password.value| < 6
    ensures v == Accepted ==> |f.password.value| >= 6 && f.confirmPassword == f.password
  {
    if !Given(f.username) || !Given(f.email) || !Given(f.password) then MissingField
    else if f.password != f.confirmPassword then PasswordMismatch
    else if |f.password.value| < 6 then PasswordTooShort
    else Accepted
  }
}
