/**
 * The change-password dialog (client/src/components/change-password-dialog.tsx): three
 * password inputs with their own show/hide flags, the submit guard, and the reset after a
 * successful change.
 */
module ChangePasswordDialog {
  import opened Wrappers
  import opened PasswordGuard

  /** The dialog's formData. */
  datatype PasswordForm = PasswordForm(currentPassword: string, newPassword: string, confirmPassword: string)

  const BlankForm := PasswordForm("", "", "")

  /** The showPasswords record, one flag per input (its `new` key is `newPassword` here). */
  datatype Visibility = Visibility(current: bool, newPassword: bool, confirm: bool)

  /** The three inputs, as togglePasswordVisibility names them. */
  datatype Field = Current | New | Confirm

  function Shown(v: Visibility, f: Field): bool {
    match f
    case Current => v.current
    case New => v.newPassword
    case Confirm => v.confirm
  }

  /** `{...prev, [field]: !prev[field]}`: the named flag flips, the other two stay. */
  function Toggle(v: Visibility, f: Field): (r: Visibility)
    ensures Shown(r, f) == !Shown(v, f)
    ensures forall g :: g != f ==> Shown(r, g) == Shown(v, g)
  {
    match f
    case Current => v.(current := !v.current)
    case New => v.(newPassword := !v.newPassword)
    case Confirm => v.(confirm := !v.confirm)
  }

  /** Toggling the same input twice shows it as before. */
  lemma ToggleTwice(v: Visibility, f: Field)
    ensures Toggle(Toggle(v, f), f) == v
  {
  }

  /** The body of PUT /api/auth/user/:id/password: the confirmation stays on the page. */
  datatype PasswordChange = PasswordChange(currentPassword: string, newPassword: string)

  /** The request handleSubmit sends, if any. */
  function Request(form: PasswordForm): (r: Option<PasswordChange>)
    ensures r.Some? <==> form.newPassword == form.confirmPassword && |form.newPassword| >= MinLength
    ensures r.Some? ==> r.value.currentPassword == form.currentPassword && r.value.newPassword == form.newPassword
  {
    if Guard(form.newPassword, form.confirmPassword) == Accepted
    then Some(PasswordChange(form.currentPassword, form.newPassword))
    else None
  }

  class Dialog {
    var open: bool
    var form: PasswordForm
    var shown: Visibility
    /** The password-change requests sent so far, oldest first. */
    var sent: seq<PasswordChange>

    constructor()
      ensures !open && form == BlankForm && shown == Visibility(false, false, false) && sent == []
    {
      open := false;
      form := BlankForm;
      shown := Visibility(false, false, false);
      sent := [];
    }

    /** onOpenChange, the trigger button and the cancel button. */
    method SetOpen(b: bool)
      modifies this
      ensures open == b && form == old(form) && shown == old(shown) && sent == old(sent)
    {
      open := b;
    }

    /** The onChange handlers of the three inputs. */
    method Edit(f: Field, text: string)
      modifies this
      ensures f == Current ==> form == old(form).(currentPassword := text)
      ensures f == New ==> form == old(form).(newPassword := text)
      ensures f == Confirm ==> form == old(form).(confirmPassword := text)
      ensures open == old(open) && shown == old(shown) && sent == old(sent)
    {
      match f
      case Current => form := form.(currentPassword := text);
      case New => form := form.(newPassword := text);
      case Confirm => form := form.(confirmPassword := text);
    }

    /** togglePasswordVisibility. */
    method TogglePasswordVisibility(f: Field)
      modifies this
      ensures shown == Toggle(old(shown), f)
      ensures open == old(open) && form == old(form) && sent == old(sent)
    {
      shown := Toggle(shown, f);
    }

    /** handleSubmit: the guard's verdict, and the request appended exactly when it accepts. */
    method HandleSubmit() returns (v: Verdict)
      modifies this
      ensures v == Guard(form.newPassword, form.confirmPassword)
      ensures v == Accepted ==> sent == old(sent) + [PasswordChange(form.currentPassword, form.newPassword)]
      ensures v != Accepted ==> sent == old(sent)
      ensures open == old(open) && form == old(form) && shown == old(shown)
    {
      v := Guard(form.newPassword, form.confirmPassword);
      if v == Accepted {
        sent := sent + [PasswordChange(form.currentPassword, form.newPassword)];
      }
    }

    /** The mutation's onSuccess: the dialog closes and all three inputs are cleared. */
    method OnSuccess()
      modifies this
      ensures !open && form == BlankForm
      ensures shown == old(shown) && sent == old(sent)
    {
      open := false;
      form := BlankForm;
    }
  }
}
