/**
 * The profile page's two tabs: personal information (name, email, role,
 * picture) with its validation before an update, and the password change.
 */
module Profile {
  import opened Wrappers
  import opened Text
  import opened QtWidgets

  /** A user dict; None is a missing key. */
  datatype User = User(id: Field, fullName: Option<string>, email: Option<string>, role: Option<string>)

  /** The role combo box's entries. */
  const RoleNames: seq<string> := ["Admin", "Manager", "Retailer"]

  /** `current_user.get('role', '').lower() == 'admin'`. */
  predicate IsAdmin(currentUser: User) {
    Lower(currentUser.role.GetOr("")) == "admin"
  }

  /** `role_combo.findText(role.capitalize())`: the entry spelt exactly so, if any. */
  function FindRole(role: string): (index: Option<nat>)
    ensures index.Some? ==> index.value < |RoleNames| && RoleNames[index.value] == Capitalize(role)
    ensures index.None? ==> Capitalize(role) !in RoleNames
  {
    var c := Capitalize(role);
    if c == RoleNames[0] then Some(0)
    else if c == RoleNames[1] then Some(1)
    else if c == RoleNames[2] then Some(2)
    else None
  }

  /** The combo box's index after selecting the user's role: the matching entry, else the first one. */
  function RoleIndexFor(user: User, index: nat): (r: nat)
    requires index < |RoleNames|
    ensures r < |RoleNames|
    ensures FindRole(user.role.GetOr("")).Some? ==> RoleNames[r] == Capitalize(user.role.GetOr(""))
    ensures FindRole(user.role.GetOr("")).None? ==> r == index
  {
    var found := FindRole(user.role.GetOr(""));
    if found.Some? then found.value else index
  }

  /** `'@' in email and '.' in email.split('@')[-1]`. */
  predicate ValidEmail(email: string) {
    '@' in email && '.' in AfterLast(email, '@')
  }

  /** An email is accepted exactly when a dot follows its last '@'. */
  lemma ValidEmailShape(email: string)
    ensures ValidEmail(email) <==>
      exists i, j | 0 <= i < j < |email| :: email[i] == '@' && email[j] == '.' && '@' !in email[i + 1..]
  {
    var r := AfterLast(email, '@');
    if '@' in email {
      if |r| == |email| {
        assert false;
      }
      var p := |email| - |r| - 1;
      assert r == email[p + 1..];
      if ValidEmail(email) {
        var j :| p + 1 <= j < |email| && email[j] == '.' by {
          var k :| 0 <= k < |r| && r[k] == '.';
          assert email[p + 1 + k] == r[k];
        }
        assert email[p] == '@' && email[j] == '.' && '@' !in email[p + 1..];
      }
      if exists i, j | 0 <= i < j < |email| :: email[i] == '@' && email[j] == '.' && '@' !in email[i + 1..] {
        var i, j :| 0 <= i < j < |email| && email[i] == '@' && email[j] == '.' && '@' !in email[i + 1..];
        assert email[j] == r[j - p - 1];
      }
    }
  }

  /** Why `save_changes` refuses, in the order it checks. */
  datatype ProfileRejection = MissingUserId | NameRequired | EmailRequired | InvalidEmail

  /** The changes sent: the stripped name and email, the lower-cased role for an admin, and the new picture's path. */
  datatype Updates = Updates(fullName: string, email: string, role: Option<string>, imagePath: Option<string>)

  datatype ProfileRequest = ProfileRejected(reason: ProfileRejection) | UpdateUser(userId: int, updates: Updates)

  /** What `save_changes` does with the form's contents. */
  function ProfileRequestFor(userId: Field, nameText: string, emailText: string, isAdmin: bool, roleText: string,
                             imagePath: Option<string>): ProfileRequest
  {
    StrippedRequestFor(userId, Strip(nameText), Strip(emailText), isAdmin, roleText, imagePath)
  }

  /** The checks of `save_changes` on the stripped name and email. */
  function StrippedRequestFor(userId: Field, name: string, email: string, isAdmin: bool, roleText: string,
                              imagePath: Option<string>): ProfileRequest
  {
    if !Truthy(userId) then ProfileRejected(MissingUserId)
    else if name == [] then ProfileRejected(NameRequired)
    else if email == [] then ProfileRejected(EmailRequired)
    else if !ValidEmail(email) then ProfileRejected(InvalidEmail)
    else UpdateUser(userId.value, Updates(name, email, if isAdmin then Some(Lower(roleText)) else None, imagePath))
  }

  /** The checks `save_changes` makes, in order, and the updates it sends once they pass. */
  lemma ProfileRequestRules(userId: Field, nameText: string, emailText: string, isAdmin: bool, roleText: string,
                            imagePath: Option<string>, r: ProfileRequest)
    requires r == ProfileRequestFor(userId, nameText, emailText, isAdmin, roleText, imagePath)
    ensures !Truthy(userId) ==> r.ProfileRejected? && r.reason.MissingUserId?
    ensures Truthy(userId) && IsBlank(nameText) ==> r.ProfileRejected? && r.reason.NameRequired?
    ensures Truthy(userId) && !IsBlank(nameText) && IsBlank(emailText) ==> r.ProfileRejected? && r.reason.EmailRequired?
    ensures Truthy(userId) && !IsBlank(nameText) && !IsBlank(emailText) && !ValidEmail(Strip(emailText)) ==>
      r.ProfileRejected? && r.reason.InvalidEmail?
    ensures r.UpdateUser? <==> Truthy(userId) && !IsBlank(nameText) && ValidEmail(Strip(emailText))
    ensures r.UpdateUser? ==>
      && r.userId == userId.value
      && r.updates.fullName == Strip(nameText) != []
      && r.updates.email == Strip(emailText)
      && (r.updates.role.Some? <==> isAdmin)
      && (isAdmin ==> r.updates.role.value == Lower(roleText))
      && r.updates.imagePath == imagePath
  {
  }

  /** `self.user.update(updates)`. */
  function Apply(user: User, updates: Updates): (u: User)
    ensures u.id == user.id && u.fullName == Some(updates.fullName) && u.email == Some(updates.email)
    ensures u.role == if updates.role.Some? then updates.role else user.role
  {
    user.(fullName := Some(updates.fullName), email := Some(updates.email),
          role := if updates.role.Some? then updates.role else user.role)
  }

  /** What `save_changes` reports. */
  datatype SaveOutcome = SaveRejected(reason: ProfileRejection) | SaveFailed | Saved(updates: Updates)

  /**
   * Where the tab's `current_user` comes from: a parent without one (or with
   * an empty one), so the user dict itself is used; a parent whose
   * `current_user` is the very dict shown (the profile page passes
   * `self.user`, and its `current_user` is that dict); or a parent holding a
   * separate dict.
   */
  datatype CurrentUserSource = NoParentUser | ParentSharesUser | ParentUser(u: User)

  class PersonalInfoTab {
    var user: User
    var currentUser: User
    /** Whether `current_user` and `user` are one dict, so that updating the user also updates it. */
    const sharesUser: bool
    var nameText: string
    var emailText: string
    var roleIndex: nat
    const roleEnabled: bool
    var profileImagePath: Option<string>

    predicate Valid()
      reads this
    {
      roleIndex < |RoleNames| && (sharesUser ==> currentUser == user)
    }

    /**
     * `PersonalInfoTab(user, parent)`: the parent's `current_user`, or the
     * user dict itself when the parent has none; the fields filled from the
     * user dict; the role combo enabled only for an admin, once and for all.
     */
    constructor (user: User, source: CurrentUserSource)
      ensures this.user == user
      ensures sharesUser <==> !source.ParentUser?
      ensures currentUser == if source.ParentUser? then source.u else user
      ensures nameText == user.fullName.GetOr("") && emailText == user.email.GetOr("")
      ensures roleIndex == RoleIndexFor(user, 0) && profileImagePath.None?
      ensures Valid() && (roleEnabled <==> IsAdmin(currentUser))
    {
      this.user := user;
      sharesUser := !source.ParentUser?;
      currentUser := if source.ParentUser? then source.u else user;
      nameText := user.fullName.GetOr("");
      emailText := user.email.GetOr("");
      roleIndex := RoleIndexFor(user, 0);
      roleEnabled := IsAdmin(if source.ParentUser? then source.u else user);
      profileImagePath := None;
    }

    /** The user edits the form. */
    method Edit(name: string, email: string, index: nat, imagePath: Option<string>)
      requires Valid() && index < |RoleNames|
      modifies this
      ensures Valid() && user == old(user) && currentUser == old(currentUser)
      ensures nameText == name && emailText == email && profileImagePath == imagePath
      ensures roleIndex == if roleEnabled then index else old(roleIndex)
    {
      nameText, emailText, profileImagePath := name, email, imagePath;
      if roleEnabled {
        roleIndex := index;
      }
    }

    /** `reset_form()`: name and email back from the user dict, its role selected, no new picture. */
    method ResetForm()
      requires Valid()
      modifies this
      ensures Valid() && user == old(user) && currentUser == old(currentUser)
      ensures nameText == user.fullName.GetOr("") && emailText == user.email.GetOr("")
      ensures roleIndex == RoleIndexFor(user, old(roleIndex)) && profileImagePath.None?
    {
      nameText := user.fullName.GetOr("");
      emailText := user.email.GetOr("");
      roleIndex := RoleIndexFor(user, roleIndex);
      profileImagePath := None;
    }

    /**
     * `save_changes()`; `apiOk` says whether reading the picture and the
     * update call succeed. Only a successful update changes the user dict,
     * and with it the current user when the two are one dict, so that a
     * later save checks the role just saved.
     */
    method SaveChanges(apiOk: bool) returns (o: SaveOutcome)
      requires Valid()
      modifies this
      ensures Valid()
      ensures nameText == old(nameText) && emailText == old(emailText) && roleIndex == old(roleIndex)
      ensures profileImagePath == old(profileImagePath)
      ensures currentUser == if sharesUser then user else old(currentUser)
      ensures var r := ProfileRequestFor(old(user).id, old(nameText), old(emailText), IsAdmin(old(currentUser)),
                                         RoleNames[old(roleIndex)], old(profileImagePath));
        && (r.ProfileRejected? ==> o == SaveRejected(r.reason) && user == old(user))
        && (r.UpdateUser? && !apiOk ==> o == SaveFailed && user == old(user))
        && (r.UpdateUser? && apiOk ==> o == Saved(r.updates) && user == Apply(old(user), r.updates))
    {
      var r := ProfileRequestFor(user.id, nameText, emailText, IsAdmin(currentUser), RoleNames[roleIndex], profileImagePath);
      o := Send(r, apiOk);
    }

    /**
     * The end of `save_changes()`: report a refusal, or send the updates and,
     * when that succeeds, apply them to the user dict (and so to the current
     * user when it is the same dict).
     */
    method Send(r: ProfileRequest, apiOk: bool) returns (o: SaveOutcome)
      requires Valid()
      modifies this
      ensures Valid()
      ensures nameText == old(nameText) && emailText == old(emailText) && roleIndex == old(roleIndex)
      ensures profileImagePath == old(profileImagePath)
      ensures currentUser == if sharesUser then user else old(currentUser)
      ensures r.ProfileRejected? ==> o == SaveRejected(r.reason) && user == old(user)
      ensures r.UpdateUser? && !apiOk ==> o == SaveFailed && user == old(user)
      ensures r.UpdateUser? && apiOk ==> o == Saved(r.updates) && user == Apply(old(user), r.updates)
    {
      if r.ProfileRejected? {
        o := SaveRejected(r.reason);
      } else if !apiOk {
        o := SaveFailed;
      } else {
        user := Apply(user, r.updates);
        if sharesUser {
          currentUser := user;
        }
        o := Saved(r.updates);
      }
    }
  }

  /** The request depends on the name and email only through their stripped text. */
  lemma StrippedRequest(userId: Field, nameText: string, emailText: string, isAdmin: bool, roleText: string)
    ensures ProfileRequestFor(userId, Strip(nameText), Strip(emailText), isAdmin, roleText, None)
         == ProfileRequestFor(userId, nameText, emailText, isAdmin, roleText, None)
  {
    StripIdempotent(nameText);
    StripIdempotent(emailText);
  }

  /**
   * After a successful save, resetting the form and saving again sends the
   * same name and email. The second save checks the role of the current
   * user: the saved user when the tab shares its dict (`shared`), the
   * unchanged one otherwise; the role goes out again exactly when that user
   * is an admin, so the whole request repeats unless a shared admin has just
   * saved a role other than admin.
   */
  lemma SaveAfterResetIsStable(user: User, nameText: string, emailText: string, isAdmin: bool, roleText: string,
                               shared: bool)
    requires shared ==> isAdmin == IsAdmin(user)
    requires ProfileRequestFor(user.id, nameText, emailText, isAdmin, roleText, None).UpdateUser?
    ensures var r := ProfileRequestFor(user.id, nameText, emailText, isAdmin, roleText, None);
      var saved := Apply(user, r.updates);
      var admin2 := if shared then IsAdmin(saved) else isAdmin;
      var r2 := ProfileRequestFor(saved.id, saved.fullName.GetOr(""), saved.email.GetOr(""), admin2, roleText, None);
      && r2.UpdateUser? && r2.userId == r.userId
      && r2.updates.fullName == r.updates.fullName && r2.updates.email == r.updates.email
      && r2.updates.imagePath.None?
      && (r2.updates.role.Some? <==> admin2)
      && (admin2 == isAdmin ==> r2 == r)
  {
    var r := ProfileRequestFor(user.id, nameText, emailText, isAdmin, roleText, None);
    var saved := Apply(user, r.updates);
    ProfileRequestRules(user.id, nameText, emailText, isAdmin, roleText, None, r);
    assert saved.fullName.GetOr("") == Strip(nameText) && saved.email.GetOr("") == Strip(emailText) && saved.id == user.id;
    StrippedRequest(user.id, nameText, emailText, true, roleText);
    StrippedRequest(user.id, nameText, emailText, false, roleText);
  }

  /**
   * An admin who saves their own profile with the role "Manager" or
   * "Retailer" is no longer an admin to a tab sharing their dict, so every
   * later save from that tab leaves the role out: they cannot take the admin
   * role back.
   */
  lemma SelfDemotionIsFinal(user: User, nameText: string, emailText: string, roleIndex: nat,
                            nameText2: string, emailText2: string, roleText2: string, imagePath2: Option<string>)
    requires IsAdmin(user) && 0 < roleIndex < |RoleNames|
    requires ProfileRequestFor(user.id, nameText, emailText, true, RoleNames[roleIndex], None).UpdateUser?
    ensures var saved := Apply(user, ProfileRequestFor(user.id, nameText, emailText, true, RoleNames[roleIndex], None).updates);
      && !IsAdmin(saved)
      && var r2 := ProfileRequestFor(saved.id, nameText2, emailText2, IsAdmin(saved), roleText2, imagePath2);
         r2.UpdateUser? ==> r2.updates.role.None? && saved.role == Some(Lower(RoleNames[roleIndex]))
  {
    var r := ProfileRequestFor(user.id, nameText, emailText, true, RoleNames[roleIndex], None);
    ProfileRequestRules(user.id, nameText, emailText, true, RoleNames[roleIndex], None, r);
    var saved := Apply(user, r.updates);
    assert saved.role == Some(Lower(RoleNames[roleIndex]));
    assert |Lower(Lower(RoleNames[roleIndex]))| != |"admin"|;
  }

  // Security tab

  /** Why `change_password` refuses, in the order it checks. */
  datatype PasswordRejection = NoUserId | OldPasswordRequired | NewPasswordRequired | PasswordsDiffer | PasswordTooShort

  datatype PasswordRequest = PasswordRejected(reason: PasswordRejection) | ChangeRequest(userId: int, oldPassword: string, newPassword: string)

  /** What `change_password` does with the three fields; `minLength` is the configured minimum length. */
  function PasswordRequestFor(userId: Field, oldPassword: string, newPassword: string, confirmPassword: string, minLength: int)
    : (r: PasswordRequest)
    ensures !Truthy(userId) ==> r == PasswordRejected(NoUserId)
    ensures Truthy(userId) && oldPassword == [] ==> r == PasswordRejected(OldPasswordRequired)
    ensures Truthy(userId) && oldPassword != [] && newPassword == [] ==> r == PasswordRejected(NewPasswordRequired)
    ensures Truthy(userId) && oldPassword != [] && newPassword != [] && newPassword != confirmPassword ==>
      r == PasswordRejected(PasswordsDiffer)
    ensures r.ChangeRequest? <==>
      Truthy(userId) && oldPassword != [] && newPassword != [] && newPassword == confirmPassword && |newPassword| >= minLength
    ensures r.ChangeRequest? ==> r == ChangeRequest(userId.value, oldPassword, newPassword)
  {
    if !Truthy(userId) then PasswordRejected(NoUserId)
    else if oldPassword == [] then PasswordRejected(OldPasswordRequired)
    else if newPassword == [] then PasswordRejected(NewPasswordRequired)
    else if newPassword != confirmPassword then PasswordRejected(PasswordsDiffer)
    else if |newPassword| < minLength then PasswordRejected(PasswordTooShort)
    else ChangeRequest(userId.value, oldPassword, newPassword)
  }

  datatype PasswordOutcome = PasswordRefused(reason: PasswordRejection) | PasswordChangeFailed | PasswordChanged

  class SecurityTab {
    const user: User
    var oldPassword: string
    var newPassword: string
    var confirmPassword: string

    constructor (user: User)
      ensures this.user == user && oldPassword == [] && newPassword == [] && confirmPassword == []
    {
      this.user := user;
      oldPassword, newPassword, confirmPassword := [], [], [];
    }

    method Edit(oldText: string, newText: string, confirmText: string)
      modifies this
      ensures oldPassword == oldText && newPassword == newText && confirmPassword == confirmText
    {
      oldPassword, newPassword, confirmPassword := oldText, newText, confirmText;
    }

    /** `change_password()`; `apiOk` says whether the API call succeeds. The fields are cleared only after a change. */
    method ChangePassword(minLength: int, apiOk: bool) returns (o: PasswordOutcome)
      modifies this
      ensures var r := PasswordRequestFor(user.id, old(oldPassword), old(newPassword), old(confirmPassword), minLength);
        && (r.PasswordRejected? ==> o == PasswordRefused(r.reason))
        && (r.ChangeRequest? && !apiOk ==> o == PasswordChangeFailed)
        && (r.ChangeRequest? && apiOk ==> o == PasswordChanged)
      ensures o == PasswordChanged ==> oldPassword == [] && newPassword == [] && confirmPassword == []
      ensures o != PasswordChanged ==>
        oldPassword == old(oldPassword) && newPassword == old(newPassword) && confirmPassword == old(confirmPassword)
    {
      var r := PasswordRequestFor(user.id, oldPassword, newPassword, confirmPassword, minLength);
      if r.PasswordRejected? {
        o := PasswordRefused(r.reason);
      } else if !apiOk {
        o := PasswordChangeFailed;
      } else {
        oldPassword, newPassword, confirmPassword := [], [], [];
        o := PasswordChanged;
      }
    }
  }
}
