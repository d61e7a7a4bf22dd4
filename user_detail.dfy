/** The single-user page: the profile header (display name and avatar
    initial), the last-login cell, and the confirmation dialog that guards
    activating, deactivating and deleting the user. No request is made by
    these handlers; the profile is the page's own sample data. */
module UserDetail {
  import opened Wrappers
  import Text

  /** The profile shown on the page; `full_name`, `last_login` may be null. */
  datatype Profile = Profile(
    id: nat,
    username: string,
    email: string,
    fullName: Option<string>,
    isActive: bool,
    role: string,
    lastLogin: Option<string>)

  /** The function the Confirm button calls. */
  datatype DialogAction = NoAction | SetStatus(newStatus: bool) | Delete

  datatype ConfirmDialog = ConfirmDialog(open: bool, title: string, message: string, action: DialogAction)

  const ClosedDialog: ConfirmDialog := ConfirmDialog(false, "", "", NoAction)
  const UsersRoute: string := "/users"
  const DeleteTitle: string := "Delete User"
  const DeleteMessage: string :=
    "Are you sure you want to delete this user? This action cannot be undone and will permanently remove all user data."

  const RegainAccess: string := "They will regain access to the system."
  const LoseAccess: string := "They will lose access to the system."

  function StatusVerb(newStatus: bool): string
  {
    if newStatus then "activate" else "deactivate"
  }

  /** The question that opens the status dialog's message. */
  function Question(verb: string): string
  {
    "Are you sure you want to " + verb + " this user? "
  }

  /** The dialog `handleStatusToggle` opens for a user whose current status is
      `isActive`: it offers the opposite status, and says the user will regain
      access when activated and lose it when deactivated. */
  function StatusDialog(isActive: bool): (d: ConfirmDialog)
    ensures d.open && d.action == SetStatus(!isActive)
    ensures !isActive ==> d.title == "Activate User" && d.message == Question("activate") + RegainAccess
    ensures isActive ==> d.title == "Deactivate User" && d.message == Question("deactivate") + LoseAccess
  {
    var newStatus := !isActive;
    var verb := StatusVerb(newStatus);
    ConfirmDialog(
      true,
      Text.Capitalize(verb) + " User",
      Question(verb) + (if newStatus then RegainAccess else LoseAccess),
      SetStatus(newStatus))
  }

  /** What the last-login cell shows: "Never", or the timestamp in the
      browser's locale format (not modelled). */
  datatype DateCell = Never | Localized(iso: string)

  /** `formatDate`: a null or empty date is shown as "Never". */
  function FormatDate(date: Option<string>): (c: DateCell)
    ensures c == Never <==> !Truthy(date)
    ensures c.Localized? ==> c.iso == date.value
  {
    if Truthy(date) then Localized(date.value) else Never
  }

  /** `full_name || username`. */
  function DisplayName(p: Profile): (name: string)
    ensures Truthy(p.fullName) ==> name == p.fullName.value
    ensures !Truthy(p.fullName) ==> name == p.username
    ensures name == "" ==> p.username == ""
  {
    if Truthy(p.fullName) then p.fullName.value else p.username
  }

  /** `full_name?.charAt(0) || username.charAt(0)`: one character, or none when
      both names are empty. */
  function AvatarInitial(p: Profile): (initial: string)
    ensures |initial| <= 1
    ensures Truthy(p.fullName) ==> initial == [p.fullName.value[0]]
    ensures !Truthy(p.fullName) && p.username != "" ==> initial == [p.username[0]]
    ensures initial == "" <==> !Truthy(p.fullName) && p.username == ""
  {
    if Truthy(p.fullName) then [p.fullName.value[0]]
    else if p.username != "" then [p.username[0]]
    else ""
  }

  /** The avatar shows the first character of the displayed name. */
  lemma AvatarMatchesName(p: Profile)
    ensures DisplayName(p) != "" ==> AvatarInitial(p) == [DisplayName(p)[0]]
    ensures DisplayName(p) == "" ==> AvatarInitial(p) == ""
  {
  }

  class UserPage {
    var user: Option<Profile>
    var loading: bool
    var confirmDialog: ConfirmDialog
    var error: Option<string>
    var location: string

    /** A status dialog is only ever opened for a loaded user. */
    predicate Valid()
      reads this
    {
      confirmDialog.action.SetStatus? ==> user.Some?
    }

    constructor (route: string)
      ensures Valid()
      ensures user == None && loading && confirmDialog == ClosedDialog && error == None && location == route
    {
      user := None;
      loading := true;
      confirmDialog := ClosedDialog;
      error := None;
      location := route;
    }

    /** The Activate/Deactivate button, shown once the user is loaded. */
    method HandleStatusToggle()
      requires user.Some?
      modifies this`confirmDialog
      ensures Valid()
      ensures confirmDialog == StatusDialog(user.value.isActive)
    {
      confirmDialog := StatusDialog(user.value.isActive);
    }

    method HandleDeleteClick()
      requires Valid()
      modifies this`confirmDialog
      ensures Valid()
      ensures confirmDialog == ConfirmDialog(true, DeleteTitle, DeleteMessage, Delete)
    {
      confirmDialog := ConfirmDialog(true, DeleteTitle, DeleteMessage, Delete);
    }

    /** Cancel, or a click outside: the dialog closes and keeps its text and
        action. */
    method CloseDialog()
      requires Valid()
      modifies this`confirmDialog
      ensures Valid()
      ensures confirmDialog == old(confirmDialog).(open := false)
    {
      confirmDialog := confirmDialog.(open := false);
    }

    /** `toggleUserStatus`: only `is_active` changes, and the dialog is reset. */
    method ToggleUserStatus(newStatus: bool)
      requires user.Some?
      modifies this`user, this`confirmDialog
      ensures Valid()
      ensures user == Some(old(user).value.(isActive := newStatus))
      ensures confirmDialog == ClosedDialog
    {
      user := Some(user.value.(isActive := newStatus));
      confirmDialog := ClosedDialog;
    }

    /** `deleteUser`: the dialog is reset and the page routes to the users list;
        the user record itself is not touched. */
    method DeleteUser()
      modifies this`confirmDialog, this`location
      ensures Valid()
      ensures confirmDialog == ClosedDialog && location == UsersRoute
    {
      confirmDialog := ClosedDialog;
      location := UsersRoute;
    }

    /** The Confirm button runs the dialog's action; with none it does nothing. */
    method Confirm()
      requires Valid()
      modifies this`user, this`confirmDialog, this`location
      ensures Valid()
      ensures old(confirmDialog.action).SetStatus? ==>
        && user == Some(old(user).value.(isActive := old(confirmDialog.action).newStatus))
        && confirmDialog == ClosedDialog && location == old(location)
      ensures old(confirmDialog.action) == Delete ==>
        user == old(user) && confirmDialog == ClosedDialog && location == UsersRoute
      ensures old(confirmDialog.action) == NoAction ==>
        user == old(user) && confirmDialog == old(confirmDialog) && location == old(location)
    {
      match confirmDialog.action {
        case SetStatus(b) => ToggleUserStatus(b);
        case Delete => DeleteUser();
        case NoAction =>
      }
    }
  }

  /** Confirming the status dialog flips the user's status and nothing else
      about the profile. */
  lemma {:induction false} ConfirmedToggleFlips(p: Profile)
    ensures var d := StatusDialog(p.isActive);
      d.action.SetStatus? && p.(isActive := d.action.newStatus) == p.(isActive := !p.isActive)
      && p.(isActive := d.action.newStatus).isActive != p.isActive
  {
    var d := StatusDialog(p.isActive);
    assert d.action == SetStatus(!p.isActive);
  }
}
