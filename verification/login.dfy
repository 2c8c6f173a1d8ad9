/**
 * The credential check the login form runs on submit, before handing the
 * entered username and password to the application.
 */
module Login {

  const BothRequired: string := "Please enter both username and password."
  const TooShort: string := "Password must be at least 6 characters long."
  /** The shortest password the form lets through. */
  const MinPasswordLength: nat := 6

  /** A submit either shows an error, or clears the error and logs in with the entered values. */
  datatype Submission = Error(message: string) | LogIn(username: string, password: string)

  /**
   * The form's decision. Emptiness of either field is checked first, then the
   * password's length; nothing is trimmed, so white space counts as input.
   */
  function HandleSubmit(username: string, password: string): (r: Submission)
    ensures username == [] || password == [] ==> r == Error(BothRequired)
    ensures username != [] && password != [] && |password| < MinPasswordLength ==> r == Error(TooShort)
    ensures username != [] && |password| >= MinPasswordLength ==> r == LogIn(username, password)
    ensures r.LogIn? ==> r == LogIn(username, password)
  {
    if username == [] || password == [] then Error(BothRequired)
    else if |password| < MinPasswordLength then Error(TooShort)
    else LogIn(username, password)
  }

  /** The error text shown after a submit: the message on failure, empty after a login. */
  function ShownError(r: Submission): (e: string)
    ensures r.LogIn? ==> e == []
    ensures r.Error? ==> e == r.message
  {
    match r
    case Error(message) => message
    case LogIn(_, _) => ""
  }

  /** The credentials the form accepts, stated on their own. */
  predicate Acceptable(username: string, password: string)
  {
    |username| >= 1 && |password| >= MinPasswordLength
  }

  /** The form logs in exactly on acceptable credentials, and never shows an error when it does. */
  lemma LogInIffAcceptable(username: string, password: string)
    ensures HandleSubmit(username, password).LogIn? <==> Acceptable(username, password)
    ensures HandleSubmit(username, password).LogIn? <==> ShownError(HandleSubmit(username, password)) == []
  {
  }

  /** Boundary cases: an empty password gets the "both" message, six characters pass, white space is input. */
  lemma SubmitExamples()
    ensures HandleSubmit("farmer", "") == Error(BothRequired)
    ensures HandleSubmit("", "secret") == Error(BothRequired)
    ensures HandleSubmit("farmer", "12345") == Error(TooShort)
    ensures HandleSubmit("farmer", "123456") == LogIn("farmer", "123456")
    ensures HandleSubmit(" ", "      ") == LogIn(" ", "      ")
  {
  }

  /** Whatever the form logs in with has both fields non-empty, so the application's own guard always lets it through. */
  lemma LogInPassesAppGuard(username: string, password: string)
    ensures HandleSubmit(username, password).LogIn? ==> username != [] && password != []
  {
  }
}
