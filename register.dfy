/**
 * The sign-up form: the five password requirements and their conjunction, the submit handler
 * that refuses an invalid password before calling the sign-up service, and the enabling of the
 * submit button and the requirements panel.
 */
module Register {
  import opened Wrappers
  import Js

  /** The character classes the password is tested against (`/[A-Z]/`, `/[a-z]/`, `/\d/` and the special set). */
  datatype CharClass = Upper | Lower | Digit | Special

  /** The special characters the last requirement accepts. */
  const SpecialCharacters: string := "!@#$%^&*(),.?\":{}|<>"

  predicate InClass(k: CharClass, c: char) {
    match k
    case Upper => 'A' <= c <= 'Z'
    case Lower => 'a' <= c <= 'z'
    case Digit => '0' <= c <= '9'
    case Special => c in SpecialCharacters
  }

  /** `regex.test(s)` for a one-character class: scans `s` from the front for a member. */
  function Test(k: CharClass, s: string): bool
    decreases |s|
  {
    if s == [] then false else InClass(k, s[0]) || Test(k, s[1..])
  }

  /** The test succeeds exactly when some character of the password is in the class. */
  lemma {:induction false} TestIff(k: CharClass, s: string)
    ensures Test(k, s) <==> exists i :: 0 <= i < |s| && InClass(k, s[i])
    decreases |s|
  {
    if s != [] {
      TestIff(k, s[1..]);
      if Test(k, s[1..]) {
        var i :| 0 <= i < |s[1..]| && InClass(k, s[1..][i]);
        assert InClass(k, s[i + 1]);
      }
      if !InClass(k, s[0]) && exists i :: 0 <= i < |s| && InClass(k, s[i]) {
        var i :| 0 <= i < |s| && InClass(k, s[i]);
        assert i > 0 && s[1..][i - 1] == s[i];
      }
    }
  }

  /** `passwordRequirements`, in the order of its keys. */
  datatype Requirements = Requirements(minLength: bool, hasUppercase: bool, hasLowercase: bool, hasNumber: bool, hasSpecial: bool)

  function PasswordRequirements(password: string): Requirements {
    Requirements(Js.Utf16Length(password) >= 8, Test(Upper, password), Test(Lower, password), Test(Digit, password), Test(Special, password))
  }

  /** `Object.values(passwordRequirements).every(Boolean)`. */
  function IsPasswordValid(password: string): bool {
    var r := PasswordRequirements(password);
    Js.Every([r.minLength, r.hasUppercase, r.hasLowercase, r.hasNumber, r.hasSpecial])
  }

  predicate Has(k: CharClass, password: string) {
    exists i :: 0 <= i < |password| && InClass(k, password[i])
  }

  /**
   * A password is valid exactly when it is at least 8 UTF-16 code units long (`password.length`)
   * and has one character of each of the four classes.
   */
  lemma IsPasswordValidIff(password: string)
    ensures IsPasswordValid(password) <==>
      Js.Utf16Length(password) >= 8 && Has(Upper, password) && Has(Lower, password) && Has(Digit, password) && Has(Special, password)
  {
    var r := PasswordRequirements(password);
    var bs := [r.minLength, r.hasUppercase, r.hasLowercase, r.hasNumber, r.hasSpecial];
    Js.EveryIff(bs);
    assert bs[0] == r.minLength && bs[1] == r.hasUppercase && bs[2] == r.hasLowercase && bs[3] == r.hasNumber && bs[4] == r.hasSpecial;
    TestIff(Upper, password);
    TestIff(Lower, password);
    TestIff(Digit, password);
    TestIff(Special, password);
  }

  /** A password with one character of each class and 8 characters is accepted. */
  lemma ValidExample()
    ensures IsPasswordValid("Abcdef1!")
  {
    var pw := "Abcdef1!";
    assert InClass(Upper, pw[0]) && InClass(Lower, pw[1]) && InClass(Digit, pw[6]) && InClass(Special, pw[7]);
    Js.Utf16LengthOfBmp(pw);
    IsPasswordValidIff(pw);
  }

  /** Seven ASCII characters are too few, whatever they are. */
  lemma ShortExample()
    ensures !IsPasswordValid("Abcd1!x")
  {
    Js.Utf16LengthOfBmp("Abcd1!x");
    IsPasswordValidIff("Abcd1!x");
  }

  /**
   * The length is counted in UTF-16 code units: six characters, two of them outside the Basic
   * Multilingual Plane, make 8 units and pass the length requirement.
   */
  lemma AstralExample()
    ensures Js.Utf16Length("Aa1!\U{1F600}\U{1F600}") == 8
    ensures IsPasswordValid("Aa1!\U{1F600}\U{1F600}")
  {
    var pw := "Aa1!\U{1F600}\U{1F600}";
    assert pw == "Aa1!" + "\U{1F600}" + "\U{1F600}";
    Js.Utf16LengthOfBmp("Aa1!");
    Js.Utf16LengthAppend("Aa1!", "\U{1F600}");
    Js.Utf16LengthAppend("Aa1!" + "\U{1F600}", "\U{1F600}");
    assert InClass(Upper, pw[0]) && InClass(Lower, pw[1]) && InClass(Digit, pw[2]) && InClass(Special, pw[3]);
    IsPasswordValidIff(pw);
  }

  const RequirementsMessage: string := "Please meet all password requirements"

  /** The submit button is disabled while loading or while the password is invalid. */
  predicate SubmitDisabled(loading: bool, password: string) {
    loading || !IsPasswordValid(password)
  }

  /** The requirements panel is shown once something is typed into the password field. */
  predicate ShowRequirements(password: string) {
    Js.Truthy(Js.Str(password))
  }

  /** The button can be pressed exactly when the page is idle and the password valid; a valid password always has its panel shown. */
  lemma SubmitEnabledIff(loading: bool, password: string)
    ensures !SubmitDisabled(loading, password) <==>
      !loading && Js.Utf16Length(password) >= 8 && Has(Upper, password) && Has(Lower, password) && Has(Digit, password) && Has(Special, password)
    ensures ShowRequirements(password) <==> password != ""
    ensures IsPasswordValid(password) ==> ShowRequirements(password)
  {
    IsPasswordValidIff(password);
  }

  /** The arguments of `signUp(email, password, username, fullName)`. */
  datatype SignUpRequest = SignUpRequest(email: string, password: string, username: string, fullName: string)

  /** The authentication service: its answer to a sign-up (an error message, or `None`), and the requests it received. */
  class AuthService {
    const reply: SignUpRequest -> Option<string>
    var requests: seq<SignUpRequest>

    constructor (reply: SignUpRequest -> Option<string>)
      ensures this.reply == reply && requests == []
    {
      this.reply := reply;
      requests := [];
    }

    method SignUp(r: SignUpRequest) returns (error: Option<string>)
      modifies this
      ensures requests == old(requests) + [r]
      ensures error == reply(r)
    {
      requests := requests + [r];
      error := reply(r);
    }
  }

  class RegisterForm {
    var email: string
    var username: string
    var fullName: string
    var password: string
    var showPassword: bool
    var error: string
    var loading: bool

    constructor ()
      ensures email == "" && username == "" && fullName == "" && password == ""
      ensures !showPassword && error == "" && !loading
    {
      email, username, fullName, password := "", "", "", "";
      showPassword, error, loading := false, "", false;
    }

    /** Typing into the password field. */
    method SetPassword(p: string)
      modifies this
      ensures password == p
      ensures email == old(email) && username == old(username) && fullName == old(fullName)
      ensures showPassword == old(showPassword) && error == old(error) && loading == old(loading)
    {
      password := p;
    }

    /** The eye button: shows or hides the password. */
    method ToggleShowPassword()
      modifies this
      ensures showPassword == !old(showPassword)
      ensures email == old(email) && username == old(username) && fullName == old(fullName) && password == old(password)
      ensures error == old(error) && loading == old(loading)
    {
      showPassword := !showPassword;
    }

    /**
     * `handleSubmit`: an invalid password sets the requirements message and does not reach the
     * service; a valid one sends exactly one request with the four fields, shows the service's
     * error message if there is one, and ends with loading off.
     */
    method HandleSubmit(auth: AuthService)
      modifies this, auth
      ensures email == old(email) && username == old(username) && fullName == old(fullName)
      ensures password == old(password) && showPassword == old(showPassword)
      ensures !IsPasswordValid(password) ==>
        auth.requests == old(auth.requests) && error == RequirementsMessage && loading == old(loading)
      ensures IsPasswordValid(password) ==>
        var r := SignUpRequest(email, password, username, fullName);
        auth.requests == old(auth.requests) + [r] && !loading &&
        error == (if auth.reply(r).Some? then auth.reply(r).value else "")
    {
      error := "";
      if !IsPasswordValid(password) {
        error := RequirementsMessage;
        return;
      }
      loading := true;
      var e := auth.SignUp(SignUpRequest(email, password, username, fullName));
      if e.Some? {
        error := e.value;
      }
      loading := false;
    }
  }
}
