/**
 * The React sign-up page (client/src/pages/register-page.tsx): five inputs, the two-step
 * password guard before POST /api/auth/register, and the session written on success.
 */
module RegisterPage {
  import opened Wrappers
  import opened PasswordGuard
  import opened RegisterValidation
  import opened LinksJson
  import opened BrowserStorage

  const BlankSignup := SignupForm("", "", "", "", "")

  /** The inputs, in the order the page shows them. */
  datatype Input = UserId | Name | Email | Password | ConfirmPassword

  /** The page's only checks; the form goes out as typed, confirmPassword included. */
  function Request(f: SignupForm): (r: Option<SignupForm>)
    ensures r.Some? <==> f.password == f.confirmPassword && |f.password| >= MinLength
    ensures r.Some? ==> r.value == f
  {
    if Guard(f.password, f.confirmPassword) == Accepted then Some(f) else None
  }

  /** The entries of `JSON.stringify({ userId, loginTime })`, in that property order. */
  function SessionEntries(userId: string, loginTime: string): (l: Links)
    ensures DistinctKeys(l)
  {
    var l := [("userId", userId), ("loginTime", loginTime)];
    assert l[1..] == [("loginTime", loginTime)] && l[1..][1..] == [];
    assert "userId" != "loginTime" by { assert "userId"[0] != "loginTime"[0]; }
    assert Keys(l[1..]) == {"loginTime"} by { assert Keys(l[1..][1..]) == {}; }
    assert DistinctKeys(l[1..]) by { assert DistinctKeys(l[1..][1..]); }
    l
  }

  /** The text stored under "userSession". */
  function SessionText(userId: string, loginTime: string): string {
    Stringify(SessionEntries(userId, loginTime))
  }

  /** A page that later parses "userSession" finds the same user id and login time. */
  lemma {:induction false} SessionReadsBack(userId: string, loginTime: string)
    ensures Parse(SessionText(userId, loginTime)) == Some(SessionEntries(userId, loginTime))
    ensures Lookup(Parse(SessionText(userId, loginTime)).value, "userId") == Some(userId)
    ensures Lookup(Parse(SessionText(userId, loginTime)).value, "loginTime") == Some(loginTime)
  {
    ParseStringify(SessionEntries(userId, loginTime));
  }

  /** Every form the static page's validateRegistrationData accepts also passes this page's guard. */
  lemma StaticAcceptsImpliesGuard(f: SignupForm)
    requires Validate(f).None?
    ensures Request(f) == Some(f)
  {
    assert !Fails(f, PasswordLength) && !Fails(f, PasswordMatch);
  }

  /**
   * The two pages order their password checks differently: for a well-formed user id and a
   * short, mistyped password this page reports the mismatch while validateRegistrationData
   * reports the length.
   */
  lemma ChecksInOtherOrder(f: SignupForm)
    requires 3 <= |f.userId| <= 20 && AllWordChars(f.userId)
    requires |f.password| < 6 && f.password != f.confirmPassword
    ensures Guard(f.password, f.confirmPassword) == Mismatch
    ensures Validate(f) == Some(PasswordLength)
  {
  }

  class Page {
    var form: SignupForm
    /** The registration requests sent so far, oldest first. */
    var sent: seq<SignupForm>
    /** The wouter location. */
    var location: string

    constructor(at: string)
      ensures form == BlankSignup && sent == [] && location == at
    {
      form := BlankSignup;
      sent := [];
      location := at;
    }

    /** The onChange handlers: one field of formData takes the typed text. */
    method Edit(i: Input, text: string)
      modifies this
      ensures i == UserId ==> form == old(form).(userId := text)
      ensures i == Name ==> form == old(form).(name := text)
      ensures i == Email ==> form == old(form).(email := text)
      ensures i == Password ==> form == old(form).(password := text)
      ensures i == ConfirmPassword ==> form == old(form).(confirmPassword := text)
      ensures sent == old(sent) && location == old(location)
    {
      match i
      case UserId => form := form.(userId := text);
      case Name => form := form.(name := text);
      case Email => form := form.(email := text);
      case Password => form := form.(password := text);
      case ConfirmPassword => form := form.(confirmPassword := text);
    }

    /** handleSubmit: the guard's verdict; an accepted form is sent whole. */
    method HandleSubmit() returns (v: Verdict)
      modifies this
      ensures v == Guard(form.password, form.confirmPassword)
      ensures v == Accepted ==> sent == old(sent) + [form]
      ensures v != Accepted ==> sent == old(sent)
      ensures form == old(form) && location == old(location)
    {
      v := Guard(form.password, form.confirmPassword);
      if v == Accepted {
        sent := sent + [form];
      }
    }

    /**
     * The mutation's onSuccess with the userId of the server's reply and the ISO time of the
     * moment: both keys are written, then the page moves to /dashboard.
     */
    method OnSuccess(storage: LocalStorage, userId: string, loginTime: string)
      modifies this, storage
      ensures storage.items == old(storage.items)["currentUser" := userId]["userSession" := SessionText(userId, loginTime)]
      ensures location == "/dashboard"
      ensures form == old(form) && sent == old(sent)
    {
      storage.SetItem("currentUser", userId);
      storage.SetItem("userSession", SessionText(userId, loginTime));
      location := "/dashboard";
    }
  }
}
