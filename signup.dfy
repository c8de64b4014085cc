/** The sign-up form: a username, a password typed twice, and an error
    message shown when the two passwords differ. */
module SignupForm {
  import opened Common

  const PasswordMismatch: string := "Passwords do not match"

  /** The submit check: matching passwords yield the credentials to sign up
      with (the confirmation itself is not passed on); differing ones yield
      the mismatch message. */
  function CheckPasswords(username: string, password: string, confirmation: string)
    : (r: Result<(string, string), string>)
    ensures r.Ok? <==> password == confirmation
    ensures r.Ok? ==> r.value == (username, password)
    ensures r.Err? ==> r.error == PasswordMismatch
  {
    if password != confirmation then Err(PasswordMismatch) else Ok((username, password))
  }

  /** What is signed up with does not depend on how the confirmation was
      typed, once it matches. */
  lemma ConfirmationNotForwarded(username: string, password: string, c1: string, c2: string)
    requires CheckPasswords(username, password, c1).Ok? && CheckPasswords(username, password, c2).Ok?
    ensures CheckPasswords(username, password, c1) == CheckPasswords(username, password, c2)
  {
  }

  /** The sign-up form. */
  class SignupPage {
    var username: string
    var password: string
    var confirmPassword: string
    var error: string

    constructor ()
      ensures username == "" && password == "" && confirmPassword == "" && error == ""
    {
      username := "";
      password := "";
      confirmPassword := "";
      error := "";
    }

    /** Typing in the three inputs. */
    method Edit(newUsername: string, newPassword: string, newConfirmation: string)
      modifies this
      ensures username == newUsername && password == newPassword
      ensures confirmPassword == newConfirmation && error == old(error)
    {
      username := newUsername;
      password := newPassword;
      confirmPassword := newConfirmation;
    }

    /** Submit. The three inputs are `required`, so while any of them is
        empty the browser blocks the submission: nothing is signed up and
        nothing changes. Otherwise, on a mismatch the error is set and nothing
        is signed up; on a match the username and password are handed on,
        once, and the error is left as it was (it is never cleared). */
    method Submit() returns (signup: Option<(string, string)>)
      modifies this
      ensures username == old(username) && password == old(password)
      ensures confirmPassword == old(confirmPassword)
      ensures signup.Some? ==> username != "" && password != "" && confirmPassword != ""
      ensures username == "" || password == "" || confirmPassword == "" ==>
        signup.None? && error == old(error)
      ensures username != "" && password != "" && confirmPassword != "" ==>
        && (password != confirmPassword ==> signup.None? && error == PasswordMismatch)
        && (password == confirmPassword ==> signup == Some((username, password)) && error == old(error))
      ensures error == old(error) || error == PasswordMismatch
    {
      if username == "" || password == "" || confirmPassword == "" {
        return None;
      }
      var checked := CheckPasswords(username, password, confirmPassword);
      if checked.Err? {
        error := checked.error;
        signup := None;
      } else {
        signup := Some(checked.value);
      }
    }
  }
}
