/**
 * app/register.tsx: the registration form. Pressing the button runs three
 * checks in a fixed order (a field left empty, an e-mail the regular
 * expression rejects, a password shorter than six UTF-16 code units),
 * shows the first failure as an alert, and otherwise raises the loading
 * flag and posts the form. When the request settles the flag drops again,
 * and the screen either reports success and goes to "/" or shows the
 * server's message or a generic error.
 */
module Register {
  import opened Wrappers
  import opened JsText
  import opened EmailRegex
  import opened Feedback

  /** The body of `POST /Auth/register`. */
  datatype RegisterBody = RegisterBody(nome: string, email: string, senha: string)

  /** The three checks, in the order they run. */
  datatype Rejection = FillAll | InvalidEmail | PasswordLength

  const MinPasswordLength := 6

  /** The validation chain of `handleRegister`, before anything is sent. */
  function Validate(nome: string, email: string, password: string): (r: Result<RegisterBody, Rejection>)
    ensures r.Success? <==>
      nome != "" && email != "" && password != ""
      && MatchesEmailRegex(email) && Utf16Length(password) >= MinPasswordLength
    ensures r.Success? ==> r.value == RegisterBody(nome, email, password)
  {
    if nome == "" || email == "" || password == "" then Failure(FillAll)
    else if !EmailTest(email) then Failure(InvalidEmail)
    else if Utf16Length(password) < MinPasswordLength then Failure(PasswordLength)
    else Success(RegisterBody(nome, email, password))
  }

  /**
   * Only the first failing check is reported: an empty field hides a bad
   * e-mail and a short password, and a bad e-mail hides a short password.
   */
  lemma FirstFailureReported(nome: string, email: string, password: string)
    ensures nome == "" || email == "" || password == "" ==>
      Validate(nome, email, password) == Failure(FillAll)
    ensures nome != "" && email != "" && password != "" && !MatchesEmailRegex(email) ==>
      Validate(nome, email, password) == Failure(InvalidEmail)
    ensures (nome != "" && email != "" && password != "" && MatchesEmailRegex(email)
             && Utf16Length(password) < MinPasswordLength) ==>
      Validate(nome, email, password) == Failure(PasswordLength)
  {
  }

  /**
   * The length rule counts UTF-16 code units: six characters always pass
   * it, and an accepted password has at least three characters (three
   * characters outside the Basic Multilingual Plane make six units).
   */
  lemma PasswordLengthInCharacters(nome: string, email: string, password: string)
    ensures Validate(nome, email, password).Success? ==> |password| >= 3
    ensures nome != "" && MatchesEmailRegex(email) && |password| >= MinPasswordLength ==>
      Validate(nome, email, password).Success?
  {
  }

  /**
   * The first check only rejects empty strings: values made only of
   * whitespace are not empty and pass it, and a whitespace-only password
   * of six units is accepted as it is, without trimming.
   */
  lemma WhitespaceIsNotEmpty(nome: string, email: string, password: string)
    requires nome != "" && email != "" && password != ""
    ensures Validate(nome, email, password) != Failure(FillAll)
    ensures (forall k | 0 <= k < |password| :: IsWs(password[k]))
            && nome != "" && MatchesEmailRegex(email) && Utf16Length(password) >= MinPasswordLength ==>
      Validate(nome, email, password) == Success(RegisterBody(nome, email, password))
  {
  }

  /** The alert each rejection shows. */
  function RejectionAlert(e: Rejection): (a: Alert)
    ensures a.title == Translated("alerts.attention")
  {
    match e
    case FillAll => Alert(Translated("alerts.attention"), Translated("register.alert.fillAll"))
    case InvalidEmail => Alert(Translated("alerts.attention"), Translated("register.alert.invalidEmail"))
    case PasswordLength => Alert(Translated("alerts.attention"), Translated("register.alert.passwordLength"))
  }

  /** What a press of the register button does right away. */
  datatype Submission =
    | Ignored                    // the button is disabled while loading
    | Rejected(alert: Alert)     // a check failed; nothing is sent
    | Posted(body: RegisterBody) // the request is on its way

  /** What the screen does once the request has settled. */
  datatype Settlement = Settlement(alert: Alert, navigateTo: Option<string>)

  /**
   * The result of a settled request: success alert and `router.replace("/")`,
   * or the error alert with the server's message or the generic one.
   */
  function SettlementOf(outcome: Outcome): (s: Settlement)
    ensures outcome.Succeeded? <==> s.navigateTo == Some("/")
    ensures outcome.Succeeded? ==> s.alert == Alert(Translated("alerts.success"), Translated("register.alert.success"))
    ensures outcome.Threw? ==> s.navigateTo == None && s.alert.title == Translated("alerts.error")
    ensures outcome.Threw? ==> NonBlank(s.alert.message)
    ensures outcome.Threw? ==> s.alert.message == ErrorText(outcome.serverMessage, Translated("register.alert.error"))
    ensures outcome.Threw? && outcome.serverMessage.Some? && outcome.serverMessage.value != "" ==>
      s.alert.message == Literal(outcome.serverMessage.value)
    ensures outcome.Threw? && (outcome.serverMessage.None? || outcome.serverMessage.value == "") ==>
      s.alert.message == Translated("register.alert.error")
  {
    match outcome
    case Succeeded =>
      Settlement(Alert(Translated("alerts.success"), Translated("register.alert.success")), Some("/"))
    case Threw(m) =>
      ErrorTextNeverBlank(m, Translated("register.alert.error"));
      Settlement(Alert(Translated("alerts.error"), ErrorText(m, Translated("register.alert.error"))), None)
  }

  /** The state of the register screen. */
  class RegisterScreen {
    var nome: string
    var email: string
    var password: string
    var isLoading: bool
    /** Requests posted and not yet settled. */
    ghost var pending: nat

    /** The loading flag is up exactly while one request is in flight. */
    ghost predicate Valid()
      reads this
    {
      pending <= 1 && (isLoading <==> pending == 1)
    }

    /** Mounting: every field empty, not loading. */
    constructor()
      ensures Valid() && pending == 0
      ensures nome == "" && email == "" && password == "" && !isLoading
    {
      nome, email, password := "", "", "";
      isLoading := false;
      pending := 0;
    }

    /** Typing into the name field. */
    method SetNome(text: string)
      modifies this`nome
      ensures nome == text
    {
      nome := text;
    }

    /** Typing into the e-mail field. */
    method SetEmail(text: string)
      modifies this`email
      ensures email == text
    {
      email := text;
    }

    /** Typing into the password field. */
    method SetPassword(text: string)
      modifies this`password
      ensures password == text
    {
      password := text;
    }

    /**
     * Pressing the register button: nothing while loading (the button is
     * disabled); otherwise `handleRegister` up to its `await`.
     */
    method Press() returns (s: Submission)
      requires Valid()
      modifies this`isLoading, this`pending
      ensures Valid()
      ensures old(isLoading) ==> s == Ignored && isLoading && pending == old(pending)
      ensures !old(isLoading) && Validate(nome, email, password).Failure? ==>
        s == Rejected(RejectionAlert(Validate(nome, email, password).error))
        && !isLoading && pending == old(pending)
      ensures !old(isLoading) && Validate(nome, email, password).Success? ==>
        s == Posted(RegisterBody(nome, email, password)) && isLoading && pending == 1
    {
      if isLoading {
        return Ignored;
      }
      var checked := Validate(nome, email, password);
      match checked {
        case Failure(e) =>
          s := Rejected(RejectionAlert(e));
        case Success(body) =>
          isLoading := true;
          pending := 1;
          s := Posted(body);
      }
    }

    /**
     * The request settles: the rest of `handleRegister` after its `await`,
     * with the `finally` that lowers the loading flag.
     */
    method Settle(outcome: Outcome) returns (s: Settlement)
      requires Valid() && pending == 1
      modifies this`isLoading, this`pending
      ensures Valid() && !isLoading && pending == 0
      ensures s == SettlementOf(outcome)
    {
      s := SettlementOf(outcome);
      isLoading := false;
      pending := 0;
    }
  }
}
