/**
 * The profile page: the signed-in admin's details, with fallbacks for
 * missing values, and a change-password form.
 */
module AdminProfile {
  import opened Nullable
  import opened AuthSlice

  /** The title under the avatar: the admin's role, or "Administrator" when
      there is no user or the role is empty. */
  function RoleTitle(user: Option<AdminUser>): (r: string)
    ensures r != ""
    ensures user.Some? && user.value.adminRole != "" ==> r == user.value.adminRole
    ensures user.None? || user.value.adminRole == "" ==> r == "Administrator"
  {
    if user.Some? && user.value.adminRole != "" then user.value.adminRole else "Administrator"
  }

  /** The avatar letter: the first character of a non-empty role, else "A". */
  function AvatarInitial(user: Option<AdminUser>): (r: string)
    ensures |r| == 1
  {
    if user.Some? && user.value.adminRole != "" then [user.value.adminRole[0]] else "A"
  }

  /** The avatar letter is always the first letter of the title shown under
      it: both fall back together, and "Administrator" starts with A. */
  lemma AvatarMatchesTitle(user: Option<AdminUser>)
    ensures |AvatarInitial(user)| == 1
    ensures AvatarInitial(user) == RoleTitle(user)[..1]
  {
  }

  /** The admin id, or "ADM-PENDING" when there is no user or the id is empty. */
  function AdminIdText(user: Option<AdminUser>): (r: string)
    ensures r != ""
    ensures user.Some? && user.value.adminId != "" ==> r == user.value.adminId
    ensures user.None? || user.value.adminId == "" ==> r == "ADM-PENDING"
  {
    if user.Some? && user.value.adminId != "" then user.value.adminId else "ADM-PENDING"
  }

  /** The email, or "Not provided" when there is no user or the email is empty. */
  function EmailText(user: Option<AdminUser>): (r: string)
    ensures r != ""
    ensures user.Some? && user.value.email != "" ==> r == user.value.email
    ensures user.None? || user.value.email == "" ==> r == "Not provided"
  {
    if user.Some? && user.value.email != "" then user.value.email else "Not provided"
  }

  const MinPasswordLength := 8

  /** The form's constraints: both fields `required`, the new one with
      `minLength={8}`. The browser submits only when they hold. */
  predicate CanSubmitPassword(currentPassword: string, newPassword: string) {
    currentPassword != "" && newPassword != "" && |newPassword| >= MinPasswordLength
  }

  class ProfilePage {
    /** The store the page selects from; the page never writes to it. */
    const auth: AuthStore
    var currentPassword: string
    var newPassword: string

    constructor (auth: AuthStore)
      ensures this.auth == auth && currentPassword == "" && newPassword == ""
    {
      this.auth := auth;
      currentPassword, newPassword := "", "";
    }

    /** The title under the avatar, read from the store. */
    function Title(): string
      reads this, auth
    {
      RoleTitle(auth.user)
    }

    method TypeCurrentPassword(text: string)
      modifies this
      ensures currentPassword == text && newPassword == old(newPassword)
      ensures Title() == old(Title())
    {
      currentPassword := text;
    }

    method TypeNewPassword(text: string)
      modifies this
      ensures newPassword == text && currentPassword == old(currentPassword)
      ensures Title() == old(Title())
    {
      newPassword := text;
    }

    /** Submitting the form clears both fields and leaves the session alone. */
    method HandlePasswordChange()
      requires CanSubmitPassword(currentPassword, newPassword)
      modifies this
      ensures currentPassword == "" && newPassword == ""
      ensures auth.Snapshot() == old(auth.Snapshot()) && Title() == old(Title())
    {
      currentPassword, newPassword := "", "";
    }
  }
}
