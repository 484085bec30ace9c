/**
 * The two-step check that the sign-up page and the change-password dialog both run before
 * sending a request: the confirmation must repeat the password, and only then is the password's
 * length looked at.
 */
module PasswordGuard {

  /** What handleSubmit decides: show the mismatch toast, show the length toast, or send. */
  datatype Verdict = Mismatch | TooShort | Accepted

  /** The shortest password either form lets through. */
  const MinLength: nat := 6

  /**
   * The guard chain. Mismatch wins over TooShort, so a short password that is also mistyped
   * reports the mismatch; a request goes out exactly when both checks pass.
   */
  function Guard(password: string, confirmation: string): (v: Verdict)
    ensures v == Mismatch <==> password != confirmation
    ensures v == TooShort <==> password == confirmation && |password| < MinLength
    ensures v == Accepted <==> password == confirmation && |password| >= MinLength
  {
    if password != confirmation then Mismatch
    else if |password| < MinLength then TooShort
    else Accepted
  }
}
