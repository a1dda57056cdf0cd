/**
 * The sign-in / sign-up form: the ordered credential checks, each with its
 * own message, the submit action and the mode toggle. The platform's email
 * pattern (`Patterns.EMAIL_ADDRESS`) is not modelled: it is the predicate
 * `emailMatches` supplied with the form.
 */
module Auth {
  import opened Options
  import opened Text

  datatype AuthError = BlankCredentials | BadEmailFormat | ShortPassword | PasswordMismatch

  /** The message shown for a failure: a non-empty sentence. */
  function Message(e: AuthError): (m: string)
    ensures |m| > 0 && m[|m| - 1] == '.'
  {
    match e
    case BlankCredentials => "Email and password cannot be empty."
    case BadEmailFormat => "Invalid email format."
    case ShortPassword => "Password must be at least 6 characters."
    case PasswordMismatch => "Passwords do not match."
  }

  /** Distinct failures have distinct messages. */
  lemma MessagesDistinct(e1: AuthError, e2: AuthError)
    requires e1 != e2
    ensures Message(e1) != Message(e2)
  {
    assert |Message(e1)| != |Message(e2)|;
  }

  const MinPasswordLength: int := 6

  /**
   * The first check the credentials fail, in the order blank fields, email
   * format, password length (in UTF-16 code units, as Kotlin counts it), and
   * (signing up only) confirmation; None when all pass.
   */
  function FirstFailure(emailMatches: string -> bool, email: string, password: string,
                        confirmPassword: string, isSignUp: bool): (r: Option<AuthError>)
    ensures r.None? <==>
      && !IsBlank(email) && !IsBlank(password)
      && emailMatches(email)
      && Utf16Length(password) >= MinPasswordLength
      && (isSignUp ==> password == confirmPassword)
    ensures r == Some(BlankCredentials) <==> IsBlank(email) || IsBlank(password)
    ensures r == Some(BadEmailFormat) <==>
      !IsBlank(email) && !IsBlank(password) && !emailMatches(email)
    ensures r == Some(ShortPassword) <==>
      !IsBlank(email) && !IsBlank(password) && emailMatches(email) && Utf16Length(password) < MinPasswordLength
    ensures r == Some(PasswordMismatch) <==>
      && !IsBlank(email) && !IsBlank(password) && emailMatches(email)
      && Utf16Length(password) >= MinPasswordLength && isSignUp && password != confirmPassword
  {
    if IsBlank(email) || IsBlank(password) then Some(BlankCredentials)
    else if !emailMatches(email) then Some(BadEmailFormat)
    else if Utf16Length(password) < MinPasswordLength then Some(ShortPassword)
    else if isSignUp && password != confirmPassword then Some(PasswordMismatch)
    else None
  }

  /** Signing in never looks at the confirmation field. */
  lemma SignInIgnoresConfirmation(emailMatches: string -> bool, email: string, password: string,
                                  c1: string, c2: string)
    ensures FirstFailure(emailMatches, email, password, c1, false) ==
            FirstFailure(emailMatches, email, password, c2, false)
  {
  }

  /**
   * A password of four characters, two of them above U+FFFF, is six code
   * units long, so it passes the length check.
   */
  lemma SurrogatePairsCountTwice(emailMatches: string -> bool, email: string)
    requires !IsBlank(email) && emailMatches(email)
    ensures FirstFailure(emailMatches, email, "ab\U{1F600}\U{1F600}", "", false) == None
  {
    var pw := "ab\U{1F600}\U{1F600}";
    assert pw[1..][1..][1..][1..] == [];
    assert !IsWhitespace(pw[0]);
  }

  /** What a submit asks the account service to do. */
  datatype AuthRequest = NoRequest | Register(email: string, password: string) | Login(email: string, password: string)

  class AuthForm {
    const emailMatches: string -> bool

    var isSignUp: bool
    var email: string
    var password: string
    var confirmPassword: string
    /** The message shown under the form, if any. */
    var error: Option<string>

    constructor (emailMatches: string -> bool)
      ensures this.emailMatches == emailMatches
      ensures !isSignUp && email == "" && password == "" && confirmPassword == "" && error.None?
    {
      this.emailMatches := emailMatches;
      isSignUp := false;
      email, password, confirmPassword := "", "", "";
      error := None;
    }

    /**
     * Runs the checks in order: the first that fails sets its message and
     * gives false; if all pass the result is true and the message is left
     * as it was.
     */
    method Validate() returns (ok: bool)
      modifies this`error
      ensures var r := FirstFailure(emailMatches, email, password, confirmPassword, isSignUp);
        && ok == r.None?
        && error == if ok then old(error) else Some(Message(r.value))
    {
      if IsBlank(email) || IsBlank(password) {
        error := Some(Message(BlankCredentials));
        return false;
      }
      if !emailMatches(email) {
        error := Some(Message(BadEmailFormat));
        return false;
      }
      if Utf16Length(password) < MinPasswordLength {
        error := Some(Message(ShortPassword));
        return false;
      }
      if isSignUp && password != confirmPassword {
        error := Some(Message(PasswordMismatch));
        return false;
      }
      return true;
    }

    /**
     * The submit button: clears the message, validates, and only when the
     * credentials pass asks to register (signing up) or to log in.
     */
    method Submit() returns (request: AuthRequest)
      modifies this`error
      ensures var r := FirstFailure(emailMatches, email, password, confirmPassword, isSignUp);
        && error == (if r.None? then None else Some(Message(r.value)))
        && request == (if r.Some? then NoRequest
                       else if isSignUp then Register(email, password)
                       else Login(email, password))
    {
      error := None;
      var ok := Validate();
      if !ok {
        return NoRequest;
      }
      if isSignUp {
        request := Register(email, password);
      } else {
        request := Login(email, password);
      }
    }

    /** Switching between signing in and signing up clears the message. */
    method ToggleMode()
      modifies this`isSignUp, this`error
      ensures isSignUp == !old(isSignUp) && error.None?
    {
      isSignUp := !isSignUp;
      error := None;
    }
  }
}
