/** The API keys screen: fetching keys and users, creating a key (whose secret
    is shown once), deleting a key after confirmation, the permission chips of
    the create form, and the lookup of a key owner's name. */
module ApiKeys {
  import opened Wrappers
  import opened Records
  import Text

  datatype ApiKey = ApiKey(
    id: nat,
    key: string,
    name: string,
    permissions: seq<string>,
    userId: nat,
    status: string)

  function KeyId(k: ApiKey): nat { k.id }

  /** The values of the create form; `user_id` comes from a select, as text. */
  datatype KeyForm = KeyForm(name: string, permissions: seq<string>, userId: string)

  const InitialForm: KeyForm := KeyForm("", ["humanize", "detect"], "")
  const FetchFailed: string := "Failed to fetch API keys. Please try again."
  const CreateFailed: string := "Failed to create API key. Please try again."
  const DeleteFailed: string := "Failed to delete API key. Please try again."
  const Copied: string := "API Key copied to clipboard"
  const Deleted: string := "API Key deleted successfully"
  const Unknown: string := "Unknown"

  /** `apiKeySchema`: a name, an owner, and at least one permission. The form
      as first shown never passes it. */
  predicate FormValid(f: KeyForm)
    ensures FormValid(f) ==> f != InitialForm && f.permissions != []
  {
    f.name != "" && |f.permissions| >= 1 && f.userId != ""
  }

  /** The form starts out invalid (no name, no owner) even though two
      permissions are preselected. */
  lemma InitialFormInvalid()
    ensures !FormValid(InitialForm) && |InitialForm.permissions| == 2
  {
  }

  /** `getUserName`: the username of the first user with that id, else "Unknown". */
  function UserName(users: seq<UserRecord>, userId: nat): (name: string)
    ensures (forall i :: 0 <= i < |users| ==> users[i].id != userId) ==> name == Unknown
    ensures forall i :: 0 <= i < |users| && users[i].id == userId
                        && (forall j :: 0 <= j < i ==> users[j].id != userId)
                        ==> name == users[i].username
  {
    match FindById(users, UserId, userId)
    case None => Unknown
    case Some(u) => u.username
  }

  function Same(p: string): string { p }

  /** The permission chip's click: remove every occurrence of `p` if present,
      otherwise add it at the end. */
  function TogglePermission(perms: seq<string>, p: string): (r: seq<string>)
    ensures p in perms ==> p !in r && IsSubsequence(r, perms)
    ensures p in perms ==> forall i :: 0 <= i < |perms| && perms[i] != p ==> perms[i] in r
    ensures p in perms ==> |r| == |perms| - multiset(perms)[p]
    ensures p !in perms ==> r == perms + [p]
  {
    if p in perms then
      var r := RemoveById(perms, Same, p);
      assert forall i :: 0 <= i < |r| ==> r[i] != p;
      CountIsMultiplicity(perms, p);
      r
    else perms + [p]
  }

  /** Counting the entries equal to `p` is taking `p`'s multiplicity. */
  lemma {:induction false} CountIsMultiplicity(xs: seq<string>, p: string)
    ensures CountId(xs, Same, p) == multiset(xs)[p]
  {
    if xs != [] {
      CountIsMultiplicity(xs[1..], p);
      assert xs == [xs[0]] + xs[1..];
    }
  }

  /** Clicking a chip twice, starting without that permission, gives the
      original list back. */
  lemma {:induction false} ToggleTwiceFromAbsent(perms: seq<string>, p: string)
    requires p !in perms
    ensures TogglePermission(TogglePermission(perms, p), p) == perms
  {
    RemoveByIdAppend(perms, [p], Same, p);
    RemoveAbsentId(perms, Same, p);
    assert RemoveById([p], Same, p) == [];
    assert perms + [] == perms;
  }

  /** Starting with the permission, two clicks remove every copy of it and put
      one back at the end. */
  lemma ToggleTwiceFromPresent(perms: seq<string>, p: string)
    requires p in perms
    ensures TogglePermission(TogglePermission(perms, p), p) == RemoveById(perms, Same, p) + [p]
  {
    var r := TogglePermission(perms, p);
    assert p !in r;
  }

  /** With a name and an owner filled in, a chip click leaves the form valid
      exactly when a permission remains: the clicked one was off, or another
      one is on. */
  lemma ToggleKeepsFormValid(f: KeyForm, p: string)
    requires f.name != "" && f.userId != ""
    ensures FormValid(f.(permissions := TogglePermission(f.permissions, p)))
        <==> p !in f.permissions || exists i :: 0 <= i < |f.permissions| && f.permissions[i] != p
  {
    var r := TogglePermission(f.permissions, p);
    if p in f.permissions && r != [] {
      assert r == RemoveById(f.permissions, Same, p);
      assert r[0] in f.permissions && r[0] != p;
      var i :| 0 <= i < |f.permissions| && f.permissions[i] == r[0];
    }
  }

  class ApiKeysScreen {
    var apiKeys: seq<ApiKey>
    var loading: bool
    var openDialog: bool
    var deleteConfirmOpen: bool
    var selectedApiKey: Option<ApiKey>
    var users: seq<UserRecord>
    var error: Option<string>
    var snackbarOpen: bool
    var snackbarMessage: string
    var newApiKey: Option<string>

    constructor ()
      ensures apiKeys == [] && loading && !openDialog && !deleteConfirmOpen
      ensures selectedApiKey == None && users == [] && error == None
      ensures !snackbarOpen && snackbarMessage == "" && newApiKey == None
    {
      apiKeys := [];
      loading := true;
      openDialog := false;
      deleteConfirmOpen := false;
      selectedApiKey := None;
      users := [];
      error := None;
      snackbarOpen := false;
      snackbarMessage := "";
      newApiKey := None;
    }

    method HandleOpenDialog()
      modifies this`openDialog
      ensures openDialog
    {
      openDialog := true;
    }

    /** Closing the create dialog also forgets the one-time secret. */
    method HandleCloseDialog()
      modifies this`openDialog, this`newApiKey
      ensures !openDialog && newApiKey == None
    {
      openDialog := false;
      newApiKey := None;
    }

    method HandleOpenDeleteConfirm(apiKey: ApiKey)
      modifies this`selectedApiKey, this`deleteConfirmOpen
      ensures selectedApiKey == Some(apiKey) && deleteConfirmOpen
    {
      selectedApiKey := Some(apiKey);
      deleteConfirmOpen := true;
    }

    method HandleCloseDeleteConfirm()
      modifies this`selectedApiKey, this`deleteConfirmOpen
      ensures selectedApiKey == None && !deleteConfirmOpen
    {
      deleteConfirmOpen := false;
      selectedApiKey := None;
    }

    method HandleCloseSnackbar()
      modifies this`snackbarOpen
      ensures !snackbarOpen
    {
      snackbarOpen := false;
    }

    /** Copies the full key (returned: the text written to the clipboard) and
        announces it. */
    method CopyApiKeyToClipboard(key: string) returns (clipboard: string)
      modifies this`snackbarMessage, this`snackbarOpen
      ensures clipboard == key && snackbarMessage == Copied && snackbarOpen
    {
      clipboard := key;
      snackbarMessage := Copied;
      snackbarOpen := true;
    }

    /** `GET /api-keys`: success replaces the list; failure reports and empties
        it; `loading` ends false either way. The error is not cleared first. */
    method FetchApiKeys(response: Response<seq<ApiKey>>)
      modifies this`apiKeys, this`loading, this`error
      ensures !loading
      ensures response.Ok? ==> apiKeys == response.body && error == old(error)
      ensures response.Err? ==> apiKeys == [] && error == Some(FetchFailed)
    {
      loading := true;
      match response {
        case Ok(keys) =>
          apiKeys := keys;
          loading := false;
        case Err(_) =>
          error := Some(FetchFailed);
          apiKeys := [];
          loading := false;
      }
    }

    /** `GET /users` for the owner column and the owner select; a failure
        empties the list and reports nothing. */
    method FetchUsers(response: Response<seq<UserRecord>>)
      modifies this`users
      ensures users == (if response.Ok? then response.body else [])
    {
      match response {
        case Ok(list) => users := list;
        case Err(_) => users := [];
      }
    }

    /** `POST /api-keys`: the new key goes at the end of the table and its secret
        is kept to be shown once; the dialog stays open to show it. */
    method HandleCreateApiKey(response: Response<ApiKey>)
      modifies this`apiKeys, this`newApiKey, this`error
      ensures response.Ok? ==>
        apiKeys == Append(old(apiKeys), response.body) && newApiKey == Some(response.body.key)
        && error == old(error)
      ensures response.Err? ==>
        apiKeys == old(apiKeys) && newApiKey == old(newApiKey) && error == Some(CreateFailed)
    {
      match response {
        case Ok(created) =>
          apiKeys := Append(apiKeys, created);
          newApiKey := Some(created.key);
        case Err(_) =>
          error := Some(CreateFailed);
      }
    }

    /** The create form's submit: the form library runs `handleCreateApiKey`
        only on values that pass `apiKeySchema`; otherwise nothing changes.
        Returns whether the handler ran. */
    method SubmitApiKeyForm(f: KeyForm, response: Response<ApiKey>) returns (accepted: bool)
      modifies this`apiKeys, this`newApiKey, this`error
      ensures accepted == FormValid(f)
      ensures accepted && response.Ok? ==>
        apiKeys == Append(old(apiKeys), response.body) && newApiKey == Some(response.body.key)
        && error == old(error)
      ensures accepted && response.Err? ==>
        apiKeys == old(apiKeys) && newApiKey == old(newApiKey) && error == Some(CreateFailed)
      ensures !accepted ==> apiKeys == old(apiKeys) && newApiKey == old(newApiKey) && error == old(error)
    {
      accepted := FormValid(f);
      if accepted {
        HandleCreateApiKey(response);
      }
    }

    /** `DELETE /api-keys/{selectedApiKey.id}`: removes every key with that id,
        closes the confirmation and announces it. With no selection the id read
        throws before any request and the failure is reported. */
    method HandleDeleteApiKey(response: Response<()>)
      modifies this`apiKeys, this`selectedApiKey, this`deleteConfirmOpen
      modifies this`snackbarMessage, this`snackbarOpen, this`error
      ensures old(selectedApiKey).Some? && response.Ok? ==>
        && apiKeys == RemoveById(old(apiKeys), KeyId, old(selectedApiKey).value.id)
        && !deleteConfirmOpen && selectedApiKey == None
        && snackbarMessage == Deleted && snackbarOpen
        && error == old(error)
      ensures old(selectedApiKey).None? || response.Err? ==>
        && apiKeys == old(apiKeys) && error == Some(DeleteFailed)
        && deleteConfirmOpen == old(deleteConfirmOpen) && selectedApiKey == old(selectedApiKey)
        && snackbarMessage == old(snackbarMessage) && snackbarOpen == old(snackbarOpen)
    {
      if selectedApiKey.None? {
        error := Some(DeleteFailed);
        return;
      }
      match response {
        case Ok(_) =>
          apiKeys := RemoveById(apiKeys, KeyId, selectedApiKey.value.id);
          HandleCloseDeleteConfirm();
          snackbarMessage := Deleted;
          snackbarOpen := true;
        case Err(_) =>
          error := Some(DeleteFailed);
      }
    }
  }
}
