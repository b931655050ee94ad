/** The settings screen: the password-change guard sequence, the role labels, and
    whether saving the billing form updates or inserts. */
module Settings {
  import opened Optional

  // ---------------------------------------------------------------- password change

  datatype PasswordForm = PasswordForm(currentPassword: string, newPassword: string, confirmPassword: string)

  const EmptyPasswordForm: PasswordForm := PasswordForm("", "", "")

  const MismatchMessage: string := "Las contraseñas no coinciden"
  const TooShortMessage: string := "La contraseña debe tener al menos 6 caracteres"
  const ChangedMessage: string := "Contraseña cambiada exitosamente"

  /** The toast the handler ends with. */
  datatype Toast = ErrorToast(message: string) | SuccessToast(message: string)

  /** The checks made before `changePassword` is called, in their order: the two new
      passwords must agree, then be at least six characters long. */
  function PasswordProblem(form: PasswordForm): (r: Option<string>)
    ensures r.None? <==> form.newPassword == form.confirmPassword && |form.newPassword| >= 6
    ensures form.newPassword != form.confirmPassword ==> r == Some(MismatchMessage)
    ensures form.newPassword == form.confirmPassword && |form.newPassword| < 6 ==> r == Some(TooShortMessage)
  {
    if form.newPassword != form.confirmPassword then Some(MismatchMessage)
    else if |form.newPassword| < 6 then Some(TooShortMessage)
    else None
  }

  /** A six-character password that is confirmed passes; five characters never do. */
  lemma PasswordLengthBoundary(form: PasswordForm)
    requires form.newPassword == form.confirmPassword
    ensures |form.newPassword| == 6 ==> PasswordProblem(form).None?
    ensures |form.newPassword| == 5 ==> PasswordProblem(form) == Some(TooShortMessage)
  {
  }

  /** A mismatch is reported even when the new password is also too short. */
  lemma MismatchReportedFirst(form: PasswordForm)
    requires form.newPassword != form.confirmPassword && |form.newPassword| < 6
    ensures PasswordProblem(form) == Some(MismatchMessage)
  {
  }

  /** The part of the screen's state the password dialog touches. */
  class PasswordDialog {
    var form: PasswordForm
    var open: bool

    constructor ()
      ensures form == EmptyPasswordForm && !open
    {
      form := EmptyPasswordForm;
      open := false;
    }

    /** `handlePasswordChange`. `changeError` is what `changePassword` would throw
        (None when it succeeds); `request` is the call made, if any. */
    method HandlePasswordChange(changeError: Option<string>) returns (toast: Toast, request: Option<(string, string)>)
      modifies this
      ensures request.Some? <==> old(form.newPassword) == old(form.confirmPassword) && |old(form.newPassword)| >= 6
      ensures request.Some? ==> request.value == (old(form.currentPassword), old(form.newPassword))
      ensures PasswordProblem(old(form)).Some? ==> toast == ErrorToast(PasswordProblem(old(form)).value)
      ensures request.Some? && changeError.None? ==> toast == SuccessToast(ChangedMessage) && !open && form == EmptyPasswordForm
      ensures request.Some? && changeError.Some? ==> toast == ErrorToast("Error al cambiar contraseña: " + changeError.value)
      ensures !(request.Some? && changeError.None?) ==> form == old(form) && open == old(open)
    {
      if form.newPassword != form.confirmPassword {
        return ErrorToast(MismatchMessage), None;
      }
      if |form.newPassword| < 6 {
        return ErrorToast(TooShortMessage), None;
      }
      request := Some((form.currentPassword, form.newPassword));
      if changeError.None? {
        toast := SuccessToast(ChangedMessage);
        open := false;
        form := EmptyPasswordForm;
      } else {
        toast := ErrorToast("Error al cambiar contraseña: " + changeError.value);
      }
    }
  }

  // ---------------------------------------------------------------- roles

  const KnownRoles: set<string> := {"admin", "manager", "cashier"}

  /** `getRoleText`. */
  function GetRoleText(role: string): (r: string)
    ensures r == role <==> role !in KnownRoles
    ensures role == "admin" ==> r == "Administrador"
    ensures role == "manager" ==> r == "Gerente"
    ensures role == "cashier" ==> r == "Cajero"
  {
    match role
    case "admin" => "Administrador"
    case "manager" => "Gerente"
    case "cashier" => "Cajero"
    case _ => role
  }

  /** `getRoleColor`. */
  function GetRoleColor(role: string): (r: string)
    ensures r == "bg-gray-100 text-gray-800" <==> role !in KnownRoles
  {
    match role
    case "admin" => "bg-red-100 text-red-800"
    case "manager" => "bg-blue-100 text-blue-800"
    case "cashier" => "bg-green-100 text-green-800"
    case _ => "bg-gray-100 text-gray-800"
  }

  /** The user type declares 'pharmacist', which the switches do not know: it shows raw, in grey. */
  lemma PharmacistShownRaw()
    ensures GetRoleText("pharmacist") == "pharmacist"
    ensures GetRoleColor("pharmacist") == "bg-gray-100 text-gray-800"
  {
  }

  // ---------------------------------------------------------------- billing

  datatype BillingForm = BillingForm(companyName: string, taxId: string, address: string, phone: string,
                                     email: string, invoicePrefix: string, fiscalPrinterEnabled: bool)

  datatype BillingConfig = BillingConfig(id: int, form: BillingForm)

  /** The write `handleBillingSubmit` issues. */
  datatype BillingWrite = UpdateRow(id: int, values: BillingForm) | InsertRow(values: BillingForm)

  /** Update the loaded configuration, or insert one when none was loaded. */
  function BillingSaveAction(loaded: Option<BillingConfig>, form: BillingForm): (w: BillingWrite)
    ensures w.UpdateRow? <==> loaded.Some?
    ensures w.UpdateRow? ==> w.id == loaded.value.id
    ensures w.values == form
  {
    match loaded
    case Some(config) => UpdateRow(config.id, form)
    case None => InsertRow(form)
  }
}
