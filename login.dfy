// The login screen's email form: the checks a submission must pass, in order,
// the call it then makes, and how an authentication error is turned into a
// message for the user.

module Login {
  import opened Text

  const FillAllFields: string := "Please fill in all fields"
  const EnterFullName: string := "Please enter your full name"
  const PasswordTooShort: string := "Password must be at least 6 characters"
  const MinPasswordLength: nat := 6

  /** The form's fields and whether it is in sign-up mode. */
  datatype Form = Form(signup: bool, email: string, password: string, fullName: string)

  /** The authentication call a valid submission makes. */
  datatype Call = LoginCall(email: string, password: string) | RegisterCall(email: string, password: string, fullName: string)

  /** What pressing the submit button leads to: an alert, or a call to the auth context. */
  datatype Submission = Rejected(message: string) | Calls(call: Call)

  /** `handleSubmit` up to the call: the guarded early returns, then the call with trimmed inputs. */
  function Submit(f: Form): Submission {
    if Trim(f.email) == "" || Trim(f.password) == "" then Rejected(FillAllFields)
    else if f.signup && Trim(f.fullName) == "" then Rejected(EnterFullName)
    else if f.signup && |f.password| < MinPasswordLength then Rejected(PasswordTooShort)
    else if f.signup then Calls(RegisterCall(Trim(f.email), f.password, Trim(f.fullName)))
    else Calls(LoginCall(Trim(f.email), f.password))
  }

  /**
   * A blank email or password is reported first, then (signing up) a blank
   * name, then (signing up) a short password; a password's length matters
   * only when signing up. A call is made only when every check passes, with
   * the email and name trimmed and the password as typed.
   */
  lemma SubmitRules(f: Form)
    ensures Submit(f) == Rejected(FillAllFields) <==> Trim(f.email) == "" || Trim(f.password) == ""
    ensures Submit(f) == Rejected(EnterFullName) <==>
      Trim(f.email) != "" && Trim(f.password) != "" && f.signup && Trim(f.fullName) == ""
    ensures Submit(f) == Rejected(PasswordTooShort) <==>
      Trim(f.email) != "" && Trim(f.password) != "" && f.signup && Trim(f.fullName) != "" && |f.password| < MinPasswordLength
    ensures Submit(f).Calls? <==>
      Trim(f.email) != "" && Trim(f.password) != "" && (f.signup ==> Trim(f.fullName) != "" && |f.password| >= MinPasswordLength)
    ensures Submit(f).Calls? ==> (Submit(f).call.email == Trim(f.email) && Submit(f).call.password == f.password &&
      (Submit(f).call.RegisterCall? <==> f.signup))
    ensures Submit(f).Calls? && f.signup ==> Submit(f).call.fullName == Trim(f.fullName)
    ensures Submit(f) == Rejected(FillAllFields) <==>
      (forall i :: 0 <= i < |f.email| ==> IsSpace(f.email[i])) || (forall i :: 0 <= i < |f.password| ==> IsSpace(f.password[i]))
  {
    TrimEmptyIffBlank(f.email);
    TrimEmptyIffBlank(f.password);
  }

  /** An email of one no-break space is blank to `trim()`, so the form asks for every field. */
  lemma NoBreakSpaceEmailIsBlank()
    ensures Submit(Form(false, "\U{A0}", "x", "")) == Rejected(FillAllFields)
  {
    assert Trim("\U{A0}") == "";
  }

  /** A one-character password is rejected on sign-up and accepted on sign-in. */
  lemma ShortPasswordOnlyMattersOnSignup()
    ensures Submit(Form(true, "a@b.c", "x", "Ann")) == Rejected(PasswordTooShort)
    ensures Submit(Form(false, "a@b.c", "x", "")) == Calls(LoginCall("a@b.c", "x"))
  {
    assert Trim("a@b.c") == "a@b.c" by { TrimOfPlain("a@b.c"); }
    assert Trim("x") == "x" by { TrimOfPlain("x"); }
    assert Trim("Ann") == "Ann" by { TrimOfPlain("Ann"); }
  }

  /** Trimming a text with no space at either end leaves it unchanged. */
  lemma TrimOfPlain(s: string)
    requires |s| > 0 && !IsSpace(s[0]) && !IsSpace(s[|s| - 1])
    ensures Trim(s) == s
  {
    assert TrimStart(s) == s;
  }

  /** `error.message || "Something went wrong"`. */
  function ErrorText(message: string): string {
    if message != "" then message else "Something went wrong"
  }

  /** `friendlyMsg`: the first Firebase error code found in the message picks the text. */
  function FriendlyMsg(message: string): string {
    var msg := ErrorText(message);
    if Contains(msg, "user-not-found") then "No account found with this email"
    else if Contains(msg, "wrong-password") || Contains(msg, "invalid-credential") then "Incorrect password"
    else if Contains(msg, "email-already-in-use") then "An account with this email already exists"
    else if Contains(msg, "invalid-email") then "Please enter a valid email address"
    else msg
  }

  /**
   * The codes are tried in priority order (user-not-found, then a wrong
   * password or invalid credential, then an email in use, then an invalid
   * email); a message with none of them is shown as it is, and an empty one
   * as "Something went wrong".
   */
  lemma FriendlyMsgRules(message: string)
    ensures Contains(message, "user-not-found") ==> FriendlyMsg(message) == "No account found with this email"
    ensures (!Contains(message, "user-not-found") &&
      (Contains(message, "wrong-password") || Contains(message, "invalid-credential"))) ==>
      FriendlyMsg(message) == "Incorrect password"
    ensures (!Contains(message, "user-not-found") && !Contains(message, "wrong-password") &&
      !Contains(message, "invalid-credential") && Contains(message, "email-already-in-use")) ==>
      FriendlyMsg(message) == "An account with this email already exists"
    ensures (!Contains(message, "user-not-found") && !Contains(message, "wrong-password") &&
      !Contains(message, "invalid-credential") && !Contains(message, "email-already-in-use") &&
      Contains(message, "invalid-email")) ==> FriendlyMsg(message) == "Please enter a valid email address"
    ensures (message != "" && !Contains(message, "user-not-found") && !Contains(message, "wrong-password") &&
      !Contains(message, "invalid-credential") && !Contains(message, "email-already-in-use") &&
      !Contains(message, "invalid-email")) ==> FriendlyMsg(message) == message
    ensures message == "" ==> FriendlyMsg(message) == "Something went wrong"
  {
    if Contains(message, "user-not-found") {
      ContainsLength(message, "user-not-found");
    }
    if message == "" {
      NoCodeWithoutHyphen(ErrorText(message));
    }
  }

  /** A text without a '-' contains none of the error codes, since each of them has one. */
  lemma NoCodeWithoutHyphen(s: string)
    requires '-' !in s
    ensures !Contains(s, "user-not-found") && !Contains(s, "wrong-password") && !Contains(s, "invalid-credential")
    ensures !Contains(s, "email-already-in-use") && !Contains(s, "invalid-email")
  {
    Absent(s, "user-not-found", 4);
    Absent(s, "wrong-password", 5);
    Absent(s, "invalid-credential", 7);
    Absent(s, "email-already-in-use", 5);
    Absent(s, "invalid-email", 7);
  }

  lemma Absent(s: string, sub: string, j: nat)
    requires j < |sub| && sub[j] !in s
    ensures !Contains(s, sub)
  {
    ContainsHasChar(s, sub, j);
  }

  /** Every character of a contained text occurs in the containing one. */
  lemma {:induction false} ContainsHasChar(s: string, sub: string, j: nat)
    requires j < |sub|
    ensures Contains(s, sub) ==> sub[j] in s
    decreases |s|
  {
    if Contains(s, sub) {
      if IsPrefix(sub, s) {
        assert s[j] == sub[j];
      } else {
        ContainsHasChar(s[1..], sub, j);
        assert s[1..] <= s[1..] && forall c :: c in s[1..] ==> c in s;
      }
    }
  }
}
