/**
 * The profile screen's decisions: the role and gender labels of the signed-in
 * user, and the change-password modal's form state.
 */
module ProfilePage {
  import opened Common
  import opened AuthSlice

  /** `user?.roleId === 1 ? 'Admin' : user?.roleId === 2 ? 'Staff' : 'Member'`. */
  function RoleLabel(user: Option<User>): (shown: string)
    ensures shown == "Admin" <==> user.Some? && user.value.roleId == Some(1)
    ensures shown == "Staff" <==> user.Some? && user.value.roleId == Some(2)
    ensures shown in {"Admin", "Staff", "Member"}
  {
    if user.Some? && user.value.roleId == Some(1) then "Admin"
    else if user.Some? && user.value.roleId == Some(2) then "Staff"
    else "Member"
  }

  /** `user?.gender ? 'Nam' : 'Nữ'`: a missing user or gender reads as `Nữ`. */
  function GenderLabel(user: Option<User>): (shown: string)
    ensures shown == "Nam" <==> user.Some? && user.value.gender == Some(true)
    ensures shown in {"Nam", "Nữ"}
  {
    if user.Some? && user.value.gender == Some(true) then "Nam" else "Nữ"
  }

  /** The modal's visibility and its three password fields. */
  datatype PasswordForm = PasswordForm(
    visible: bool,
    currentPassword: string,
    newPassword: string,
    confirmPassword: string)

  const InitialForm: PasswordForm := PasswordForm(false, "", "", "")

  const MismatchMessage: string := "Mật khẩu mới và xác nhận mật khẩu không khớp!"
  const ChangedMessage: string := "Mật khẩu đã được thay đổi!"

  datatype Notice = ErrorAlert(text: string) | SuccessAlert(text: string)

  datatype Submission = Submission(form: PasswordForm, notice: Notice)

  /** Opening the modal shows it with whatever the fields held. */
  function Open(f: PasswordForm): (r: PasswordForm)
    ensures r.visible
    ensures r == f.(visible := true)
  {
    f.(visible := true)
  }

  /** Cancel (or the system back action) hides the modal and keeps every field. */
  function Cancel(f: PasswordForm): (r: PasswordForm)
    ensures !r.visible
    ensures r.currentPassword == f.currentPassword && r.newPassword == f.newPassword
    ensures r.confirmPassword == f.confirmPassword
  {
    f.(visible := false)
  }

  /**
   * `handleChangePassword`: differing new and confirm passwords alert and
   * change nothing; matching ones report success, hide the modal and clear
   * all three fields.
   */
  function ChangePassword(f: PasswordForm): (r: Submission)
    ensures f.newPassword != f.confirmPassword ==> r == Submission(f, ErrorAlert(MismatchMessage))
    ensures f.newPassword == f.confirmPassword ==> r == Submission(InitialForm, SuccessAlert(ChangedMessage))
  {
    if f.newPassword != f.confirmPassword then Submission(f, ErrorAlert(MismatchMessage))
    else Submission(f.(visible := false, currentPassword := "", newPassword := "", confirmPassword := ""),
                    SuccessAlert(ChangedMessage))
  }

  /** The current password takes no part in the decision. */
  lemma CurrentPasswordIgnored(f: PasswordForm, other: string)
    ensures ChangePassword(f.(currentPassword := other)).notice == ChangePassword(f).notice
    ensures ChangePassword(f.(currentPassword := other)).form.visible == ChangePassword(f).form.visible
  {
  }

  /**
   * Nothing requires a non-empty new password: submitting the cleared form
   * again is accepted, and so is any form whose two new fields are empty.
   */
  lemma EmptyPasswordAccepted(f: PasswordForm)
    requires f.newPassword == "" && f.confirmPassword == ""
    ensures ChangePassword(f).notice.SuccessAlert?
    ensures ChangePassword(ChangePassword(f).form) == ChangePassword(f)
  {
  }

  /** A mismatch can be corrected and resubmitted: the form it leaves is the form submitted. */
  lemma MismatchKeepsInput(f: PasswordForm)
    requires f.newPassword != f.confirmPassword
    ensures ChangePassword(f).form == f && ChangePassword(f).notice.ErrorAlert?
  {
  }
}
