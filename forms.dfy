/**
 * The field cleaners of ContactForm and SignUpForm (app/forms.py). Each receives the value the
 * field's own validation produced and either returns it unchanged or raises a validation error,
 * modelled as Err with the error text.
 */
module Forms {
  import opened Wrappers

  const NameError := "Name must be at least 3 characters long."
  const EmailDomainError := "Email must end with @gmail.com"
  /** The message cleaner's text names 10 characters although it demands 50. */
  const MessageError := "Message must be at least 10 characters long."
  const EmailTakenError := "Email is already taken."
  const UsernameTakenError := "Username is already taken."
  const PasswordMismatchError := "Passwords do not match."

  const RequiredDomain := "@gmail.com"
  const MinNameLength := 3
  const MinMessageLength := 50

  /** Python's str.endswith. */
  predicate EndsWith(s: string, suffix: string) {
    |suffix| <= |s| && s[|s| - |suffix|..] == suffix
  }

  /** str.endswith agrees with "some prefix followed by the suffix". */
  lemma EndsWithSplit(s: string, suffix: string)
    ensures EndsWith(s, suffix) <==> exists prefix: string :: s == prefix + suffix
  {
    if EndsWith(s, suffix) {
      var prefix := s[..|s| - |suffix|];
      assert s == prefix + suffix;
    }
    if exists prefix: string :: s == prefix + suffix {
      var prefix: string :| s == prefix + suffix;
      assert s[|s| - |suffix|..] == suffix;
    }
  }

  /** ContactForm.clean_name. */
  function CleanName(name: string): (r: Result<string, string>)
    ensures r.Ok? <==> |name| >= MinNameLength
    ensures r.Ok? ==> r.value == name
    ensures r.Err? ==> r.error == NameError
  {
    if |name| < MinNameLength then Err(NameError) else Ok(name)
  }

  /** ContactForm.clean_email. */
  function CleanContactEmail(email: string): (r: Result<string, string>)
    ensures r.Ok? <==> exists local: string :: email == local + RequiredDomain
    ensures r.Ok? ==> r.value == email
    ensures r.Err? ==> r.error == EmailDomainError
  {
    EndsWithSplit(email, RequiredDomain);
    if !EndsWith(email, RequiredDomain) then Err(EmailDomainError) else Ok(email)
  }

  /** ContactForm.clean_message. */
  function CleanMessage(message: string): (r: Result<string, string>)
    ensures r.Ok? <==> |message| >= MinMessageLength
    ensures r.Ok? ==> r.value == message
    ensures r.Err? ==> r.error == MessageError
  {
    if |message| < MinMessageLength then Err(MessageError) else Ok(message)
  }

  /** A message of 10 to 49 characters satisfies the length its error text announces and is still refused. */
  lemma MessageErrorUnderstatesMinimum(message: string)
    requires 10 <= |message| < MinMessageLength
    ensures CleanMessage(message) == Err(MessageError)
  {
  }

  /** SignUpForm.clean_email: `existing` is the set of e-mail addresses of the stored users. */
  function CleanSignUpEmail(email: string, existing: set<string>): (r: Result<string, string>)
    ensures r.Err? <==> email in existing
    ensures r.Ok? ==> r.value == email
    ensures r.Err? ==> r.error == EmailTakenError
  {
    if email in existing then Err(EmailTakenError) else Ok(email)
  }

  /** SignUpForm.clean_username: `existing` is the set of usernames of the stored users. */
  function CleanUsername(username: string, existing: set<string>): (r: Result<string, string>)
    ensures r.Err? <==> username in existing
    ensures r.Ok? ==> r.value == username
    ensures r.Err? ==> r.error == UsernameTakenError
  {
    if username in existing then Err(UsernameTakenError) else Ok(username)
  }

  /**
   * SignUpForm.clean_password2. `password1` is None when that field failed its own validation and
   * so never reached the cleaned data; an empty string is falsy in the source's test.
   */
  function CleanPassword2(password1: Option<string>, password2: string): (r: Result<string, string>)
    ensures r.Err? <==> password1.Some? && password1.value != "" && password2 != "" && password1.value != password2
    ensures r.Ok? ==> r.value == password2
    ensures r.Err? ==> r.error == PasswordMismatchError
  {
    match password1
    case Some(p1) =>
      if p1 != "" && password2 != "" && p1 != password2 then Err(PasswordMismatchError) else Ok(password2)
    case None => Ok(password2)
  }
}
