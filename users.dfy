/** The users table screen: fetching the list, the create/edit dialog, the
    delete confirmation, and the create, update and delete handlers. Each
    handler's HTTP request is an input: its outcome is a parameter. The form
    values a handler posts are not modelled; what reaches the list is the
    record the server sends back. */
module Users {
  import opened Wrappers
  import opened Records

  const FetchFailed: string := "Failed to fetch users. Please try again."
  const TryAgain: string := "Please try again."
  const Created: string := "User created successfully"
  const Updated: string := "User updated successfully"
  const Deleted: string := "User deleted successfully"

  /** `"Failed to " + verb + " user. " + (detail || "Please try again.")`. */
  function ActionError(verb: string, detail: Option<string>): (msg: string)
    ensures var prefix := "Failed to " + verb + " user. ";
      && |prefix| <= |msg| && msg[..|prefix|] == prefix
      && msg[|prefix|..] == (if Truthy(detail) then detail.value else TryAgain)
  {
    var prefix := "Failed to " + verb + " user. ";
    var msg := prefix + DetailOr(detail, TryAgain);
    assert msg[..|prefix|] == prefix;
    msg
  }

  class UsersScreen {
    var users: seq<UserRecord>
    var loading: bool
    var openDialog: bool
    var deleteConfirmOpen: bool
    var selectedUser: Option<UserRecord>
    var error: Option<string>
    var successMessage: Option<string>

    constructor ()
      ensures users == [] && loading && !openDialog && !deleteConfirmOpen
      ensures selectedUser == None && error == None && successMessage == None
    {
      users := [];
      loading := true;
      openDialog := false;
      deleteConfirmOpen := false;
      selectedUser := None;
      error := None;
      successMessage := None;
    }

    /** Opens the form dialog, for editing `user` or, with None, for a new one. */
    method HandleOpenDialog(user: Option<UserRecord>)
      modifies this
      ensures selectedUser == user && openDialog
      ensures users == old(users) && loading == old(loading) && deleteConfirmOpen == old(deleteConfirmOpen)
      ensures error == old(error) && successMessage == old(successMessage)
    {
      selectedUser := user;
      openDialog := true;
    }

    method HandleCloseDialog()
      modifies this
      ensures !openDialog && selectedUser == None
      ensures users == old(users) && loading == old(loading) && deleteConfirmOpen == old(deleteConfirmOpen)
      ensures error == old(error) && successMessage == old(successMessage)
    {
      openDialog := false;
      selectedUser := None;
    }

    method HandleOpenDeleteConfirm(user: UserRecord)
      modifies this
      ensures selectedUser == Some(user) && deleteConfirmOpen
      ensures users == old(users) && loading == old(loading) && openDialog == old(openDialog)
      ensures error == old(error) && successMessage == old(successMessage)
    {
      selectedUser := Some(user);
      deleteConfirmOpen := true;
    }

    method HandleCloseDeleteConfirm()
      modifies this
      ensures !deleteConfirmOpen && selectedUser == None
      ensures users == old(users) && loading == old(loading) && openDialog == old(openDialog)
      ensures error == old(error) && successMessage == old(successMessage)
    {
      deleteConfirmOpen := false;
      selectedUser := None;
    }

    /** `GET /users`: success replaces the list, failure keeps it and reports;
        `loading` ends false and the error is cleared first. */
    method FetchUsers(response: Response<seq<UserRecord>>)
      modifies this
      ensures !loading
      ensures response.Ok? ==> users == response.body && error == None
      ensures response.Err? ==> users == old(users) && error == Some(FetchFailed)
      ensures openDialog == old(openDialog) && deleteConfirmOpen == old(deleteConfirmOpen)
      ensures selectedUser == old(selectedUser) && successMessage == old(successMessage)
    {
      loading := true;
      error := None;
      match response {
        case Ok(list) =>
          users := list;
          loading := false;
        case Err(_) =>
          error := Some(FetchFailed);
          loading := false;
      }
    }

    /** `POST /users/register`: the returned record is appended and the dialog
        closes; on failure only the error changes. */
    method HandleCreateUser(response: Response<UserRecord>)
      modifies this
      ensures response.Ok? ==>
        && users == Append(old(users), response.body)
        && successMessage == Some(Created)
        && !openDialog && selectedUser == None
        && error == old(error)
      ensures response.Err? ==>
        && users == old(users) && error == Some(ActionError("create", response.detail))
        && successMessage == old(successMessage)
        && openDialog == old(openDialog) && selectedUser == old(selectedUser)
      ensures loading == old(loading) && deleteConfirmOpen == old(deleteConfirmOpen)
    {
      match response {
        case Ok(created) =>
          users := Append(users, created);
          successMessage := Some(Created);
          HandleCloseDialog();
        case Err(d) =>
          error := Some(ActionError("create", d));
      }
    }

    /** `PUT /users/{selectedUser.id}`: the entries with the selected id are
        replaced by the returned record and the dialog closes. With no selection,
        reading `selectedUser.id` throws before any request and the catch block
        reports it with no detail. */
    method HandleUpdateUser(response: Response<UserRecord>)
      modifies this
      ensures old(selectedUser).Some? && response.Ok? ==>
        && users == ReplaceById(old(users), UserId, old(selectedUser).value.id, response.body)
        && successMessage == Some(Updated)
        && !openDialog && selectedUser == None
        && error == old(error)
      ensures old(selectedUser).None? || response.Err? ==>
        && users == old(users)
        && error == Some(ActionError("update", if old(selectedUser).None? then None else response.detail))
        && successMessage == old(successMessage)
        && openDialog == old(openDialog) && selectedUser == old(selectedUser)
      ensures loading == old(loading) && deleteConfirmOpen == old(deleteConfirmOpen)
    {
      if selectedUser.None? {
        error := Some(ActionError("update", None));
        return;
      }
      match response {
        case Ok(updated) =>
          users := ReplaceById(users, UserId, selectedUser.value.id, updated);
          successMessage := Some(Updated);
          HandleCloseDialog();
        case Err(d) =>
          error := Some(ActionError("update", d));
      }
    }

    /** `DELETE /users/{selectedUser.id}`: every entry with the selected id is
        removed and the confirmation closes. */
    method HandleDeleteUser(response: Response<()>)
      modifies this
      ensures old(selectedUser).Some? && response.Ok? ==>
        && users == RemoveById(old(users), UserId, old(selectedUser).value.id)
        && successMessage == Some(Deleted)
        && !deleteConfirmOpen && selectedUser == None
        && error == old(error)
      ensures old(selectedUser).None? || response.Err? ==>
        && users == old(users)
        && error == Some(ActionError("delete", if old(selectedUser).None? then None else response.detail))
        && successMessage == old(successMessage)
        && deleteConfirmOpen == old(deleteConfirmOpen) && selectedUser == old(selectedUser)
      ensures loading == old(loading) && openDialog == old(openDialog)
    {
      if selectedUser.None? {
        error := Some(ActionError("delete", None));
        return;
      }
      match response {
        case Ok(_) =>
          users := RemoveById(users, UserId, selectedUser.value.id);
          successMessage := Some(Deleted);
          HandleCloseDeleteConfirm();
        case Err(d) =>
          error := Some(ActionError("delete", d));
      }
    }

    /** The form's submit: update when a user is selected, otherwise create. */
    method HandleSubmit(response: Response<UserRecord>)
      modifies this
      ensures old(selectedUser).Some? && response.Ok? ==>
        users == ReplaceById(old(users), UserId, old(selectedUser).value.id, response.body)
      ensures old(selectedUser).None? && response.Ok? ==> users == Append(old(users), response.body)
      ensures response.Err? ==> users == old(users)
      ensures response.Err? ==>
        error == Some(ActionError(if old(selectedUser).Some? then "update" else "create", response.detail))
      ensures response.Ok? ==>
        && successMessage == Some(if old(selectedUser).Some? then Updated else Created)
        && !openDialog && selectedUser == None && error == old(error)
      ensures response.Err? ==>
        && successMessage == old(successMessage)
        && openDialog == old(openDialog) && selectedUser == old(selectedUser)
      ensures loading == old(loading) && deleteConfirmOpen == old(deleteConfirmOpen)
    {
      if selectedUser.Some? {
        HandleUpdateUser(response);
      } else {
        HandleCreateUser(response);
      }
    }
  }
}
