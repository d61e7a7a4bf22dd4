# Admin console core, modelled in Dafny

This project models the logic under a React admin console for a text
humanizing and detection service. Most of the console is rendering. Its logic
is one session manager plus a set of list, string, filter and validation rules.
Those parts are modelled here:

- **Auth** (`auth.dfy`): the session manager of `AuthProvider`.
  - Its state is the signed-in flag, the user, `loading`, `error`, the
    browser's storage, the process-wide `Authorization` header and the current
    route.
  - It has three operations: restore on mount, `login` and `logout`.
  - Each operation is a function on a `Session` value and a method of the
    `SessionManager` class. Each method changes the fields step by step, as the
    source does, and is proved to reach the state that function gives.
  - Lemmas state what survives a failure at each step, that `loading` is always
    released, that logout is idempotent, that a successful login survives a
    reload, and an invariant kept by every operation.
- **Json** (`json.dfy`): the profile text kept under the storage key `user`.
  It is written by `JSON.stringify` and read by `JSON.parse`, with a proved
  round trip.
- **Records** (`records.dfy`): the user record and the id-keyed list operations
  the table screens use: append, replace-by-id, remove-by-id and find-by-id.
- **Users** (`users.dfy`): the users table. It covers fetching, the create and
  edit dialog, the delete confirmation, the create, update and delete handlers
  with their error messages, and the routing of the form's submit.
- **ApiKeys** (`api_keys.dfy`): the API keys table. It covers fetching keys and
  users, creating a key (its secret is shown once), deleting a key, the
  permission chip toggle, the owner-name lookup and the form's validity rule.
- **Transactions** (`transactions.dfy`): the status counts, the filter record
  with its handlers, the status and payment-method labels, and the status
  colour.
- **Logs** (`logs.dfy`): the filter record and the query it sends, fetching,
  the row id, the user-id cell and the level colour.
- **Settings** (`settings.dfy`): the password policy (the regular expression
  modelled as its lookaheads), the confirm rule, and the numeric rules of the
  system settings. It also has the visibility toggles, saving, and the form
  library's rule that a submit handler runs only on valid values.
- **UserDetail** (`user_detail.dfy`): the single-user page. It covers the
  activate/deactivate and delete confirmation dialog, the status update, the
  route after deletion, the display name, the avatar initial and the
  last-login cell.
- **Text** (`text.dfy`) and **Wrappers** (`wrappers.dfy`): shared helpers. These
  are capitalising, splitting and joining, key masking, an optional value, and
  the outcome of an HTTP request.

Network requests, the browser's storage and the router are not called. Each
request's outcome is a parameter: a response body, or a failure carrying the
server's optional `detail`. Storage is a map from key to text. The router is a
`location` field. Where a handler sends a request whose content matters (the
login requests, the logs query), the method returns what it sends.

The login flow is not all-or-nothing. The code sets the `Authorization` header
as soon as the token arrives (src/contexts/AuthContext.js:50). It writes
storage and signs in only after the profile arrives (lines 56-60). If the
profile request fails, the new header stays in place and the rest of the
session is unchanged. The model follows the code: `Auth.ProfileFailureKeepsHeader`
and `Auth.ProfileFailureSplitsHeaderFromStorage` state this, and no rollback is
assumed. The same holds for a corrupt stored profile. `JSON.parse` throws after
the signed-in flag is set, and `loading` is never cleared (lines 22-27). So
restore is modelled only for a stored profile that parses
(`Auth.WellFormedCache`), and no silent fallback is claimed.

## Model

| member | source | states |
|---|---|---|
| Wrappers.DetailOr | src/scenes/users/index.js:118 | the server's detail when it is non-empty, else the fallback |
| Text.Capitalize | src/scenes/transactions/index.js:254 | same length; the first character is upper-cased and the rest are kept |
| Text.UpperChar | src/scenes/transactions/index.js:254 | an ASCII letter becomes its upper-case form and every other character is kept; the result is an upper-case letter exactly when the input is a letter, and never a lower-case one |
| Text.Split | src/scenes/transactions/index.js:267 | at least one piece, and no piece contains the separator |
| Text.Join | src/scenes/transactions/index.js:267 | no pieces give the empty text; otherwise the text starts with the first piece (the rest of its content is stated by Text.JoinSplit and Transactions.JoinCapitalized) |
| Text.JoinSplit | src/scenes/transactions/index.js:267 | joining the pieces of a split with the same separator gives the text back |
| Text.MaskKey | src/scenes/api-keys/index.js:196 | the first min(8, length) characters of the key, followed by exactly eleven bullets; nothing else of the key is shown (the user page's key cell, src/scenes/users/User.js:266, uses the same mask) |
| Records.Append | src/scenes/users/index.js:107 | the new record is last, and the earlier entries are kept in order |
| Records.ReplaceById | src/scenes/users/index.js:130-134 | same length; exactly the entries with the id become the new record, and the others are unchanged |
| Records.RemoveById | src/scenes/users/index.js:156 | no entry with the id is left; every other entry is kept, in order (a subsequence); the length drops by the number of matches |
| Records.FindById | src/scenes/api-keys/index.js:161 | found exactly when some entry has the id, and then it is the first such entry |
| Records.RemoveByIdIdempotent | src/scenes/users/index.js:156 | deleting the same id twice removes nothing more |
| Records.RemoveAfterReplace | src/scenes/users/index.js:130-134 | an update that keeps the id, followed by a delete of that id, leaves the same list as the delete alone |
| Records.RemoveByIdAppend | src/scenes/api-keys/index.js:457 | removing an id from a concatenation removes it from each part |
| Records.RemoveAbsentId | src/scenes/api-keys/index.js:457 | removing an id that no entry has changes nothing |
| Json.Decimal | src/contexts/AuthContext.js:57 | the numeral of the id is a non-empty run of decimal digits |
| Json.DecimalValue | src/contexts/AuthContext.js:57 | the numeral written for an id denotes that id |
| Json.NatRoundTrip | src/contexts/AuthContext.js:23 | reading a written id returns the id and the text after it |
| Json.StringRoundTrip | src/contexts/AuthContext.js:23 | reading a written string literal returns the string and the text after it, whatever quotes or backslashes it holds |
| Json.BoolRoundTrip | src/contexts/AuthContext.js:23 | reading a written boolean returns it |
| Json.Serialize | src/contexts/AuthContext.js:57 | the stored profile text is an object: it starts with `{` and ends with `}` |
| Json.Parse | src/contexts/AuthContext.js:23 | a record is read only from text laid out as a stored profile, starting with the `id` member; Json.ParseSerialize shows every stored profile is read back |
| Json.ParseSerialize | src/contexts/AuthContext.js:57 | the stored profile parses back to the same record |
| Json.SerializeNonEmpty | src/contexts/AuthContext.js:21 | the stored profile text is never empty, so it counts as present |
| Auth.BearerHeader | src/contexts/AuthContext.js:50 | `Bearer `, then exactly the token (section 2.1 of RFC 6750) |
| Auth.Restored | src/contexts/AuthContext.js:17-28 | signed in afterwards exactly when already signed in or a session is stored; `loading` ends false; storage, error and route are kept |
| Auth.LoginStarted | src/contexts/AuthContext.js:31-32 | `loading` on and no error, with the session, storage, header and route as they were |
| Auth.LoginSettled | src/contexts/AuthContext.js:34-67 | `loading` ends false; a token sets the bearer header; any failure sets an error and keeps storage, sign-in, user and route; full success signs in with the profile, routes to `/`, keeps the error cleared by the start, and stores a session whenever the token is non-empty |
| Auth.LoginRequests | src/contexts/AuthContext.js:35-53 | the form-encoded token request with username and password, then, only when a token came back, the profile request carrying `Bearer` and that token |
| Auth.LoggedOut | src/contexts/AuthContext.js:70-77 | no session stored, no header, signed out with no user, on `/login`; the stored keys are the old ones minus the two session keys, every other value is kept, and `loading` and the error are kept |
| Auth.ProfileRequestCarriesSessionHeader | src/contexts/AuthContext.js:50-53 | when a token came back, the profile request carries exactly the header the session ends with, whether or not the profile arrives |
| Auth.Consistent | src/contexts/AuthContext.js:10-28 | the invariant: a signed-in session has a header and a stored profile that reads back as its user |
| Auth.RestoreEffect | src/contexts/AuthContext.js:17-28 | signs in with the parsed profile and sets the bearer header exactly when both keys are stored and non-empty; otherwise those fields are untouched; `loading` ends false; storage, error and route are unchanged |
| Auth.RestoreAfterMount | src/contexts/AuthContext.js:17-28 | on a fresh provider, restore signs in if and only if a session is stored, and the result is consistent |
| Auth.RestoreConsistent | src/contexts/AuthContext.js:17-28 | restore keeps the session invariant |
| Auth.LoginStartedShowsLoading | src/contexts/AuthContext.js:31-32 | login first shows `loading`, clears the error, and changes nothing else |
| Auth.LoginReleasesLoading | src/contexts/AuthContext.js:65-67 | `loading` is false after login, whatever the outcomes |
| Auth.LoginSucceeds | src/contexts/AuthContext.js:47-61 | both requests succeed: header, both storage keys, signed-in flag, user and route change together, the stored profile reads back as the user, and no error is left |
| Auth.TokenFailureKeepsSession | src/contexts/AuthContext.js:35-45 | the token request fails: only `error` (the detail, or "Login failed") and `loading` change |
| Auth.ProfileFailureKeepsHeader | src/contexts/AuthContext.js:50-63 | the profile request fails: storage, signed-in flag, user and route are unchanged, but the header already carries the new token |
| Auth.ProfileFailureSplitsHeaderFromStorage | src/contexts/AuthContext.js:50-57 | after that failure over a signed-in session, the header no longer matches the stored token |
| Auth.LoginConsistent | src/contexts/AuthContext.js:30-68 | login keeps the session invariant on every outcome |
| Auth.ReloadAfterLogin | src/contexts/AuthContext.js:17-28 | after a successful login, a reload restores the same user and the same header |
| Auth.LogoutClears | src/contexts/AuthContext.js:70-77 | logout removes both keys and the header, signs out and routes to `/login`; no key is added, other storage keys, the error and `loading` are untouched |
| Auth.LogoutIdempotent | src/contexts/AuthContext.js:70-77 | logging out twice gives the same state as once |
| Auth.LogoutConsistent | src/contexts/AuthContext.js:70-77 | logout keeps the session invariant |
| Auth.LoginThenLogout | src/contexts/AuthContext.js:30-77 | after login and logout, with any outcomes, no session is stored, nobody is signed in and no header is set |
| Auth.SessionManager.constructor | src/contexts/AuthContext.js:10-13 | a new provider is signed out, has no user, is loading and has no error |
| Auth.SessionManager.Restore | src/contexts/AuthContext.js:17-28 | the fields end as the restore function gives, and the invariant is kept |
| Auth.SessionManager.StartLogin | src/contexts/AuthContext.js:31-32 | `loading` on and the error cleared |
| Auth.SessionManager.Login | src/contexts/AuthContext.js:30-68 | the fields end as the login functions give; it returns the token request and, only when a token came back, a profile request carrying the new header; the invariant is kept |
| Auth.SessionManager.Logout | src/contexts/AuthContext.js:70-77 | the fields end as the logout function gives, and the invariant is kept |
| Users.ActionError | src/scenes/users/index.js:118 | "Failed to <verb> user. " followed by the server's detail, or "Please try again." |
| Users.UsersScreen.constructor | src/scenes/users/index.js:49-55 | empty list, loading, both dialogs closed, nothing selected, no messages |
| Users.UsersScreen.HandleOpenDialog | src/scenes/users/index.js:57-60 | selects the given user (or none, for a new one) and opens the form dialog; nothing else changes |
| Users.UsersScreen.HandleCloseDialog | src/scenes/users/index.js:62-65 | closes the form dialog and clears the selection; nothing else changes |
| Users.UsersScreen.HandleOpenDeleteConfirm | src/scenes/users/index.js:67-70 | selects the user and opens the delete confirmation |
| Users.UsersScreen.HandleCloseDeleteConfirm | src/scenes/users/index.js:72-75 | closes the confirmation and clears the selection |
| Users.UsersScreen.FetchUsers | src/scenes/users/index.js:81-97 | success replaces the list and leaves no error; failure keeps the list and sets the fetch error; `loading` ends false |
| Users.UsersScreen.HandleCreateUser | src/scenes/users/index.js:99-120 | success appends the returned record, announces it, closes the dialog and clears the selection; failure changes only the error |
| Users.UsersScreen.HandleUpdateUser | src/scenes/users/index.js:122-146 | success replaces the entries with the selected id by the returned record and closes the dialog; failure, or no selection, changes only the error |
| Users.UsersScreen.HandleDeleteUser | src/scenes/users/index.js:148-170 | success removes every entry with the selected id and closes the confirmation; failure, or no selection, changes only the error |
| Users.UsersScreen.HandleSubmit | src/scenes/users/index.js:313 | with a selected user the submit updates, otherwise it creates; success announces "updated" or "created", closes the dialog and clears the selection; failure sets the matching error and keeps the list, message, dialog and selection; `loading` and the delete confirmation never change |
| ApiKeys.FormValid | src/scenes/api-keys/index.js:35-39 | a name, an owner and at least one permission; the form as first shown never passes |
| ApiKeys.InitialFormInvalid | src/scenes/api-keys/index.js:29-39 | the initial form, with two preselected permissions, is invalid (no name and no owner) |
| ApiKeys.UserName | src/scenes/api-keys/index.js:160-163 | the username of the first user with that id, else "Unknown" |
| ApiKeys.TogglePermission | src/scenes/api-keys/index.js:452-461 | a present permission is removed everywhere, with the others kept in order and with their multiplicities (the length drops by exactly the copies of the permission); an absent one is appended at the end |
| ApiKeys.ToggleTwiceFromAbsent | src/scenes/api-keys/index.js:452-461 | two clicks on an absent permission give the original list back |
| ApiKeys.ToggleTwiceFromPresent | src/scenes/api-keys/index.js:452-461 | two clicks on a present permission remove all its copies and put one back at the end, for every list |
| ApiKeys.ToggleKeepsFormValid | src/scenes/api-keys/index.js:35-39 | with a name and an owner, a chip click leaves the form valid exactly when the clicked permission was off or another one is on |
| ApiKeys.ApiKeysScreen.constructor | src/scenes/api-keys/index.js:44-53 | no keys, loading, dialogs closed, nothing selected, no secret shown |
| ApiKeys.ApiKeysScreen.HandleOpenDialog | src/scenes/api-keys/index.js:55-57 | opens the create dialog |
| ApiKeys.ApiKeysScreen.HandleCloseDialog | src/scenes/api-keys/index.js:59-62 | closes the dialog and forgets the one-time secret |
| ApiKeys.ApiKeysScreen.HandleOpenDeleteConfirm | src/scenes/api-keys/index.js:64-67 | selects the key and opens the confirmation |
| ApiKeys.ApiKeysScreen.HandleCloseDeleteConfirm | src/scenes/api-keys/index.js:69-72 | closes the confirmation and clears the selection |
| ApiKeys.ApiKeysScreen.HandleCloseSnackbar | src/scenes/api-keys/index.js:74-76 | closes the snackbar |
| ApiKeys.ApiKeysScreen.CopyApiKeyToClipboard | src/scenes/api-keys/index.js:78-82 | the full key is written to the clipboard and the snackbar says so |
| ApiKeys.ApiKeysScreen.FetchApiKeys | src/scenes/api-keys/index.js:89-105 | success replaces the list; failure empties it and sets the error; `loading` ends false |
| ApiKeys.ApiKeysScreen.FetchUsers | src/scenes/api-keys/index.js:107-119 | success replaces the users; failure empties them and leaves the error alone |
| ApiKeys.ApiKeysScreen.HandleCreateApiKey | src/scenes/api-keys/index.js:121-137 | success appends the returned key and keeps its secret for display; failure changes only the error |
| ApiKeys.ApiKeysScreen.SubmitApiKeyForm | src/scenes/api-keys/index.js:385-389 | the create handler runs exactly when the form passes the schema, with its effects; an invalid form changes nothing |
| ApiKeys.ApiKeysScreen.HandleDeleteApiKey | src/scenes/api-keys/index.js:139-158 | success removes every key with the selected id, closes the confirmation and announces it; failure, or no selection, changes only the error |
| Transactions.CountStatus | src/scenes/transactions/index.js:185-190 | the number of transactions with exactly that status (its multiplicity among the statuses) |
| Transactions.ComputeStats | src/scenes/transactions/index.js:185-190 | the total is the number of transactions, and each count is how often that status occurs |
| Transactions.StatsAddUp | src/scenes/transactions/index.js:185-190 | the four counts add up to at most the total, and to exactly the total if and only if every status is one of the four |
| Transactions.StatusColor | src/scenes/transactions/index.js:235-248 | each known status has its own colour, and only unknown ones get the default |
| Transactions.StatusColorsDistinct | src/scenes/transactions/index.js:235-248 | different known statuses get different colours |
| Transactions.StatusLabel | src/scenes/transactions/index.js:254 | the status with its first character upper-cased |
| Transactions.CapitalizeAll | src/scenes/transactions/index.js:267 | each word capitalised, in order |
| Transactions.JoinCapitalized | src/scenes/transactions/index.js:267 | joining capitalised words with spaces mirrors joining the words with underscores, character by character |
| Transactions.PaymentMethodLabel | src/scenes/transactions/index.js:267 | the label has the method's length; each underscore becomes a space, each word's first character is upper-cased, and the rest is unchanged |
| Transactions.CreditCardLabel | src/scenes/transactions/index.js:267 | `credit_card` is shown as `Credit Card` |
| Transactions.TransactionsScreen.constructor | src/scenes/transactions/index.js:22-37 | empty list, loading, the default filter, zero counts |
| Transactions.TransactionsScreen.FetchTransactions | src/scenes/transactions/index.js:43-205 | the list and its counts are loaded and `loading` ends false |
| Transactions.TransactionsScreen.HandleFilterChange | src/scenes/transactions/index.js:207-212 | only the named filter field takes the value |
| Transactions.TransactionsScreen.ResetFilters | src/scenes/transactions/index.js:218-224 | status and payment method back to "all", both dates empty |
| Logs.QueryParams | src/scenes/logs/index.js:44-49 | level and service are sent only when not "all", dates only when not empty, each unchanged |
| Logs.QueryParamsRoundTrip | src/scenes/logs/index.js:44-49 | dropping the defaults loses nothing: the filter can be read back from its query |
| Logs.QueryParamsInjective | src/scenes/logs/index.js:44-49 | different filters send different queries |
| Logs.DefaultFilterSendsNothing | src/scenes/logs/index.js:72-78 | the reset filter sends no parameters |
| Logs.RowId | src/scenes/logs/index.js:301 | the row's id when truthy, else timestamp followed by message |
| Logs.UserIdCell | src/scenes/logs/index.js:151-153 | the value when truthy, else "N/A"; the cell is never blank |
| Logs.LevelChipColor | src/scenes/logs/index.js:82-101 | ERROR, WARNING, INFO and DEBUG have fixed colours; every other level is grey |
| Logs.LevelColorsDistinct | src/scenes/logs/index.js:86-101 | different known levels get different colours |
| Logs.LogsScreen.constructor | src/scenes/logs/index.js:22-31 | empty list, loading, the default filter, no error |
| Logs.LogsScreen.FetchLogs | src/scenes/logs/index.js:36-59 | sends the filter's query; success replaces the list with no error; failure empties it and sets the error; `loading` ends false |
| Logs.LogsScreen.HandleFilterChange | src/scenes/logs/index.js:61-66 | only the named filter field takes the value |
| Logs.LogsScreen.ResetFilters | src/scenes/logs/index.js:72-78 | the default filter, which sends no parameters |
| Settings.LookaheadFindsIff | src/scenes/settings/index.js:62 | a lookahead `(?=.*[k])` succeeds exactly when a character of the class comes before the first line break |
| Settings.MatchesPattern | src/scenes/settings/index.js:62 | the pattern matches exactly when the text is non-empty, its first character is allowed, and a lower-case letter, an upper-case letter, a digit and a special character each occur before the first line break |
| Settings.NewPasswordValid | src/scenes/settings/index.js:58-63 | a new password is valid exactly when it has at least 8 characters, an allowed first character, and a lower-case letter, an upper-case letter, a digit and a special character before the first line break |
| Settings.ShortPasswordRejected | src/scenes/settings/index.js:58-60 | fewer than 8 characters is rejected |
| Settings.PatternIgnoresSuffix | src/scenes/settings/index.js:62 | no end anchor: anything may follow a matching password |
| Settings.LookaheadPrefix | src/scenes/settings/index.js:62 | a lookahead that succeeds on a text succeeds on any extension of it |
| Settings.SpacesAccepted | src/scenes/settings/index.js:62 | a password with spaces after its first character is accepted |
| Settings.SpecialAfterLineBreakRejected | src/scenes/settings/index.js:62 | a special character that only appears after a line break does not count |
| Settings.PasswordFormValid | src/scenes/settings/index.js:56-70 | rejected when the confirmation differs from the new password or the current password is empty; when accepted, the confirmation itself follows the policy |
| Settings.PositiveIntegerRules | src/scenes/settings/index.js:44-50 | 2.5 is positive but not an integer, 587 is a positive integer, and zero, negatives and missing values are rejected |
| Settings.SettingsValid | src/scenes/settings/index.js:42-54 | a valid user limit and SMTP port are present and at least 1 |
| Settings.InitialSettingsValid | src/scenes/settings/index.js:28-54 | the built-in settings pass the modelled rules |
| Settings.Flip | src/scenes/settings/index.js:164-169 | only the named field's visibility flips |
| Settings.FlipTwice | src/scenes/settings/index.js:164-169 | two toggles of a field restore it |
| Settings.FlipsCommute | src/scenes/settings/index.js:164-169 | toggles of two fields commute |
| Settings.SettingsScreen.constructor | src/scenes/settings/index.js:75-85 | built-in settings, loading, snackbar closed, every password hidden |
| Settings.SettingsScreen.FetchSettings | src/scenes/settings/index.js:91-112 | loads the built-in settings, which are valid, and clears `loading` |
| Settings.SettingsScreen.HandleSystemSettingsSave | src/scenes/settings/index.js:114-134 | the submitted values replace the whole record, and a success snackbar opens |
| Settings.SettingsScreen.SubmitSystemSettings | src/scenes/settings/index.js:42-54 | values are saved exactly when they pass the rules, so valid settings stay valid |
| Settings.SettingsScreen.HandlePasswordChange | src/scenes/settings/index.js:136-158 | the form is cleared and a success snackbar opens |
| Settings.SettingsScreen.SubmitPasswordForm | src/scenes/settings/index.js:56-70 | the change is accepted exactly when the form passes the password rules |
| Settings.SettingsScreen.HandleCloseSnackbar | src/scenes/settings/index.js:160-162 | closes the snackbar |
| Settings.SettingsScreen.ToggleShowPassword | src/scenes/settings/index.js:164-169 | flips the visibility of that field only |
| UserDetail.StatusDialog | src/scenes/users/User.js:189-198 | offers the opposite status; titled "Activate User" with "regain access" for an inactive user, and "Deactivate User" with "lose access" for an active one |
| UserDetail.FormatDate | src/scenes/users/User.js:253-256 | "Never" exactly for a null or empty date |
| UserDetail.DisplayName | src/scenes/users/User.js:462 | the full name when non-empty, else the username |
| UserDetail.AvatarInitial | src/scenes/users/User.js:459 | the first character of the full name when non-empty, else of the username; empty only when both are empty |
| UserDetail.AvatarMatchesName | src/scenes/users/User.js:459-462 | the avatar shows the first character of the displayed name |
| UserDetail.ConfirmedToggleFlips | src/scenes/users/User.js:189-228 | confirming the status dialog flips the user's status |
| UserDetail.UserPage.constructor | src/scenes/users/User.js:45-57 | no user, loading, dialog closed, no error |
| UserDetail.UserPage.HandleStatusToggle | src/scenes/users/User.js:189-199 | opens the status dialog for the user's current status |
| UserDetail.UserPage.HandleDeleteClick | src/scenes/users/User.js:201-208 | opens the delete dialog with its fixed title and message |
| UserDetail.UserPage.CloseDialog | src/scenes/users/User.js:743-750 | closes the dialog and keeps its text and action |
| UserDetail.UserPage.ToggleUserStatus | src/scenes/users/User.js:210-233 | only `is_active` changes, and the dialog is reset |
| UserDetail.UserPage.DeleteUser | src/scenes/users/User.js:235-251 | the dialog is reset and the page routes to `/users` |
| UserDetail.UserPage.Confirm | src/scenes/users/User.js:753 | runs the dialog's action: a status update, the delete, or nothing |

## Left out

- Network requests, `localStorage`, the clipboard and the router are never
  called. Request outcomes are parameters, storage is a map, and the route is
  a field.
- Request details other than the login requests and the logs query
  parameters are not modelled: the form values each handler posts, the URLs,
  and the `Authorization` header that the table screens and the logs screen
  read from storage. The list
  changes only with what the server sends back.
- The form-encoded body of the token request is a list of pairs; its
  percent-encoding is not modelled.
- A failed request always carries an optional text `detail`. A `detail` that
  is not text (a list of validation errors, say) is not modelled.
- A token response without `access_token` is not modelled; the body is the
  token text.
- Auth.Restored: a stored profile that does not parse is excluded by a
  precondition. The source throws partway through restore in that case.
- Json.Serialize: control characters and lone surrogates are written as they
  are, not `\u`-escaped as `JSON.stringify` does. The round trip does not
  depend on this.
- Json.Parse: only the layout that `Json.Serialize` writes is read; other
  valid JSON texts (spaces, another member order) give no record.
- Text.Join: its contract states the empty case and the first piece only. The
  whole joined text is stated where it is used, by Text.JoinSplit and
  Transactions.JoinCapitalized.
- Text.UpperChar: only ASCII letters are upper-cased. The Unicode case
  mapping of `toUpperCase` is not modelled.
- Settings.NewPasswordValid: the length counts characters, not UTF-16 code
  units.
- Settings.SettingsValid: the URL and e-mail format checks are not modelled.
  Their rules belong to the validation library. Numbers are exact reals, not
  floating-point values.
- Settings: the error branches of `fetchSettings`, `handleSystemSettingsSave`
  and `handlePasswordChange` are not modelled. Nothing in their `try` blocks
  can throw.
- ApiKeys.UserName: ids are compared as numbers. With `===`, an id of a
  different type (text against number) would never match.
- The `setTimeout` that clears the users screen's success message is not
  modelled (timing). So is `actions.resetForm()` after a create.
- Transactions: amounts, currencies and dates (floating point and locale
  formatting), the chart series, and the sample data in the fetch are not
  modelled. The list is a parameter.
- Logs and transactions: the fetch that `resetFilters` starts runs with the
  filter from before the reset, because of React's state closures. Reset and
  fetch are separate steps here, and no claim is made that a reset sends the
  default query.
- UserDetail: the page's sample profile, keys, transactions and usage, its
  tabs, the quota percentage and the edit navigation are not modelled.
- Rendering, layout, charts and theme colours are not modelled. Colours are
  named tags.
- Concurrent `login` calls are not modelled: login is one atomic step. The
  login form, the route table and the not-found page are not modelled either.
