/**
 * app/index.tsx: the login form. Pressing the button with the e-mail or
 * the password empty shows a warning and does nothing else; otherwise the
 * loading flag goes up, a sign-in attempt is made, and when it settles the
 * flag drops again, with an error alert if the attempt threw. The sign-in
 * itself is opaque here: only its outcome is modelled.
 */
module Login {
  import opened Wrappers
  import opened Feedback

  const FallbackError := "Email ou senha inválidos."

  /** The warning for an empty e-mail or password. */
  const MissingFieldsAlert := Alert(Literal("Atenção"), Literal("Por favor, preencha o email e a senha."))

  /** The guard of `handleLogin`: the warning, or the credentials to sign in with. */
  function Guard(email: string, password: string): (r: Result<(string, string), Alert>)
    ensures r.Failure? <==> email == "" || password == ""
    ensures r.Failure? ==> r.error == MissingFieldsAlert
    ensures r.Success? ==> r.value == (email, password)
  {
    if email == "" || password == "" then Failure(MissingFieldsAlert) else Success((email, password))
  }

  /**
   * The alert after a settled attempt: none on success; on failure the
   * server's message, or the fixed fallback when there is none.
   */
  function LoginAlert(outcome: Outcome): (a: Option<Alert>)
    ensures a.None? <==> outcome.Succeeded?
    ensures a.Some? ==> a.value.title == Literal("Erro de Login") && NonBlank(a.value.message)
    ensures outcome.Threw? ==>
      a == Some(Alert(Literal("Erro de Login"), ErrorText(outcome.serverMessage, Literal(FallbackError))))
    ensures outcome.Threw? && outcome.serverMessage.Some? && outcome.serverMessage.value != "" ==>
      a == Some(Alert(Literal("Erro de Login"), Literal(outcome.serverMessage.value)))
    ensures outcome.Threw? && (outcome.serverMessage.None? || outcome.serverMessage.value == "") ==>
      a == Some(Alert(Literal("Erro de Login"), Literal(FallbackError)))
  {
    match outcome
    case Succeeded => None
    case Threw(m) =>
      ErrorTextNeverBlank(m, Literal(FallbackError));
      Some(Alert(Literal("Erro de Login"), ErrorText(m, Literal(FallbackError))))
  }

  /** What a press of the login button does right away. */
  datatype Submission =
    | Ignored                                    // the button is disabled while loading
    | Warned(alert: Alert)                       // a field is empty; no attempt
    | SignInStarted(email: string, password: string)

  /** The state of the login screen. */
  class LoginScreen {
    var email: string
    var password: string
    var isLoading: bool
    /** Sign-in attempts started and not yet settled. */
    ghost var pending: nat

    /** The loading flag is up exactly while one attempt is in flight. */
    ghost predicate Valid()
      reads this
    {
      pending <= 1 && (isLoading <==> pending == 1)
    }

    /** Mounting: both fields empty, not loading. */
    constructor()
      ensures Valid() && pending == 0
      ensures email == "" && password == "" && !isLoading
    {
      email, password := "", "";
      isLoading := false;
      pending := 0;
    }

    /** Typing into the e-mail field. */
    method SetEmail(text: string)
      modifies this`email
      ensures email == text
    {
      email := text;
    }

    /** Typing into the password field. */
    method SetPassword(text: string)
      modifies this`password
      ensures password == text
    {
      password := text;
    }

    /**
     * Pressing the login button: nothing while loading (the button is
     * disabled, so no second attempt starts during one in progress);
     * otherwise `handleLogin` up to its `await`.
     */
    method Press() returns (s: Submission)
      requires Valid()
      modifies this`isLoading, this`pending
      ensures Valid()
      ensures old(isLoading) ==> s == Ignored && isLoading && pending == old(pending)
      ensures !old(isLoading) && (email == "" || password == "") ==>
        s == Warned(MissingFieldsAlert) && !isLoading && pending == old(pending)
      ensures !old(isLoading) && email != "" && password != "" ==>
        s == SignInStarted(email, password) && isLoading && pending == 1
    {
      if isLoading {
        return Ignored;
      }
      match Guard(email, password) {
        case Failure(alert) =>
          s := Warned(alert);
        case Success((e, p)) =>
          isLoading := true;
          pending := 1;
          s := SignInStarted(e, p);
      }
    }

    /**
     * The attempt settles: the `catch` that shows the error and the
     * `finally` that lowers the loading flag.
     */
    method Settle(outcome: Outcome) returns (alert: Option<Alert>)
      requires Valid() && pending == 1
      modifies this`isLoading, this`pending
      ensures Valid() && !isLoading && pending == 0
      ensures alert == LoginAlert(outcome)
    {
      alert := LoginAlert(outcome);
      isLoading := false;
      pending := 0;
    }
  }
}
