# Project management system — verified model of its core

This project models, in Dafny, the core of a project-management application
with an Express/Mongoose server and a React client:

- **Accounts and sessions** (`UserController`, `SrcUserController`). Registration
  checks that the email is unused. Email verification redeems a hashed ticket
  that has not expired. Login has ordered guards and issues a token pair that
  overwrites the stored refresh token. Logout clears it. Refresh, password
  reset and resending the verification mail are modelled too. The account
  store is a class whose records are updated in place.
- **Authentication and project permission gates** (`AuthGate`, `AuthGateSrc`).
  A cookie plus a token-verification result gives a session user or an error
  code. The membership lookup matches `project OR user`, and the found role
  must appear in the route's role list.
- **Project store and member handlers** (`ProjectModel`, `ProjectController`).
  This covers the schema defaults, the pre-save member count, name uniqueness
  on create and update, and the role guard that no string passes.
- **Request validators** (`ValidationChain`, `UserValidators`,
  `ProjectValidators`, `SrcProjectValidators`, `TaskValidators`,
  `ValidateMiddleware`). These are express-validator chains as predicates on
  strings, plus the middleware that turns an error list into a 422 payload.
- **File controller** (`FileController`). It covers folder creation with
  ownership checks, listing a folder's files, and the guards of the upload
  handler.
- **Client-side collection transforms**:
  - the file tree of the Files page (`FilesPage`), with path walks,
    flattening, flag toggles, folder insertion, deletion and breadcrumbs;
  - the Kanban board (`KanbanBoard`) and its task dialog (`TaskDialog`);
  - the filter dialog and project list of the Projects page
    (`ProjectFilters`, `ProjectsPage`);
  - task filtering, role changes and notes on the project detail page
    (`ProjectDetail`).

**Form of the model.**
- Server stores are sequences, and a record's id is its index. Insertion
  order is Mongo's natural order, so `findOne` is "first match".
- Stateful handlers are methods of a class (`UserStore`, `ProjectStore`,
  `FileStore`, `Request`, `FilesState`, `Board`, `ProjectDocument`). Each
  method's `ensures` ties the new state to a pure function, and the
  properties are proved about those functions.

**Parameters, not implementations.**
- SHA-256 (FIPS 180-4) and JWT verification (RFC 7519) are function
  parameters.
- `generateTemporaryToken` is an input value, and `isPasswordCorrect` is a
  function parameter.
- The clock (`now`, `today`) is a parameter.
- Fresh ids (`Date.now()`, Mongo `_id`) are parameters, or the next index.
- Object URLs are input values.

**Behaviour of the code worth spelling out:**
- Refresh: a token mismatch is a plain 401, and nothing is revoked.
- Registration checks that the email is unused; it does not check the
  username.
- Password reset compares `password` with `conformPassword` and uses no
  reset ticket.

## Model

| member | source | states |
|---|---|---|
| UserController.IndexOfEmail | backend/src/controllers/user.controllers.js:56-58 | `findOne({email})`: the first account with that email, or -1 when none has it |
| UserController.Register | backend/src/controllers/user.controllers.js:56-98 | 409 iff some account has the email (store unchanged); otherwise one account is appended with the lowercased username and the hashed ticket, and the URL carries the unhashed token; unique emails are preserved |
| UserController.VerifyEmail | backend/src/controllers/user.controllers.js:166-198 | a missing token is an error; success iff some account stores SHA-256 of the token with an expiry strictly after now; that account becomes verified with its ticket cleared; every failure leaves the store unchanged |
| UserController.IssueTokens | backend/src/controllers/user.controllers.js:16-36 | only the given account's refreshToken changes, to the issued refresh value |
| UserController.Login | backend/src/controllers/user.controllers.js:114-164 | unknown email 400, unverified 401, wrong password 401, checked in that order with the store unchanged; success iff all three pass, and then tokens are issued |
| UserController.Logout | backend/src/controllers/user.controllers.js:200-218 | the caller's refreshToken becomes "" and nothing else changes; always succeeds |
| UserController.RefreshAsWritten | backend/src/controllers/user.controllers.js:242-289 | as written: a missing cookie gives 400; every request with a cookie ends in the 401 catch-all and nothing is rotated |
| UserController.Refresh | backend/src/controllers/user.controllers.js:245-288 | intended rotation: 400 without a cookie; success iff the verified id names an account whose stored refresh token equals the cookie, which rotates that record; every other failure is 401 with the store unchanged |
| UserController.ResetPassword | backend/src/controllers/user.controllers.js:291-311 | unknown email 404; mismatched passwords 402; otherwise only that account's password changes |
| UserController.ResendAsWritten | backend/src/controllers/user.controllers.js:313-338 | as written: nothing is stored; unknown email 404, otherwise the unbound `sendEmail` fails |
| UserController.Resend | backend/src/controllers/user.controllers.js:313-338 | corrected: 404 iff the email is unknown; a known email always succeeds, and then the account's ticket hash and expiry are stored and the URL carries the unhashed token |
| UserController.UserStore.RegisterUser | backend/src/controllers/user.controllers.js:38-112 | new accounts and result are those of `Register` |
| UserController.UserStore.VerifyEmailToken | backend/src/controllers/user.controllers.js:166-198 | new accounts and result are those of `VerifyEmail` |
| UserController.UserStore.GenerateAccessAndRefreshTokens | backend/src/controllers/user.controllers.js:16-36 | new accounts are those of `IssueTokens` |
| UserController.UserStore.LoginUser | backend/src/controllers/user.controllers.js:114-164 | new accounts and result are those of `Login` |
| UserController.UserStore.LogoutUser | backend/src/controllers/user.controllers.js:200-218 | new accounts are those of `Logout` |
| UserController.UserStore.RefreshAccessTokenAsWritten | backend/src/controllers/user.controllers.js:242-289 | the result is that of `RefreshAsWritten` and the store is untouched |
| UserController.UserStore.RefreshAccessToken | backend/src/controllers/user.controllers.js:261-273 | new accounts and result are those of `Refresh` |
| UserController.UserStore.ForgotPassword | backend/src/controllers/user.controllers.js:291-311 | new accounts and result are those of `ResetPassword` |
| UserController.UserStore.ResendEmailVerificationAsWritten | backend/src/controllers/user.controllers.js:313-338 | the result is that of `ResendAsWritten` and the store is untouched |
| UserController.UserStore.ResendEmailVerification | backend/src/controllers/user.controllers.js:313-338 | new accounts and result are those of `Resend` |
| UserController.RegisterThenVerify | backend/src/controllers/user.controllers.js:67-98 | the ticket created at registration verifies the new account, with nothing else changed |
| UserController.VerifyTwiceFails | backend/src/controllers/user.controllers.js:190-193 | once a ticket is redeemed, redeeming it again gives 404 |
| UserController.RegisterThenLoginRejected | backend/src/controllers/user.controllers.js:128-140 | a freshly registered account cannot log in (401, unverified) |
| UserController.LoginThenRefreshRotates | backend/src/controllers/user.controllers.js:25-32 | the refresh token issued at login is accepted by refresh, which stores its replacement |
| UserController.LogoutThenRefreshFails | backend/src/controllers/user.controllers.js:205-207 | after logout, refresh with a non-empty cookie that verifies to that account gives 401 |
| UserController.RefreshAsWrittenRejectsValidToken | backend/src/controllers/user.controllers.js:251-268 | a token the intended refresh accepts is rejected with 401 by the code as written |
| UserController.ResendThenVerify | backend/src/controllers/user.controllers.js:313-338 | with the corrected resend, the mailed ticket verifies the account |
| UserController.ResendAsWrittenTicketUnusable | backend/src/controllers/user.controllers.js:319-323 | with resend as written, the new ticket can never verify the account |
| UserController.HandlersKeepEmails | backend/src/controllers/user.controllers.js:200-338 | logout, password reset and resend keep emails unique |
| AuthGate.SessionUserOf | backend/src/middlewares/isLoggedIn.middleware.js:26-27 | the session user keeps id, email and username, without password or refresh token |
| AuthGate.Authenticate | backend/src/middlewares/isLoggedIn.middleware.js:9-41 | no cookie gives a thrown 405; otherwise the user is admitted iff the token verifies to an existing account; every other case is 401 through `next` |
| AuthGate.IndexOfMembership | backend/src/middlewares/isLoggedIn.middleware.js:50-55 | the first membership whose project is the given one OR whose user is the caller |
| AuthGate.CheckPermission | backend/src/middlewares/isLoggedIn.middleware.js:43-69 | no projectId gives 404; without `req.user` the lookup throws a TypeError; no matching membership gives 401; the role is assigned iff a record matches, and it is that record's role; access iff that role is in `roles`, otherwise 402 |
| AuthGate.DefaultRolesRejectAll | backend/src/middlewares/isLoggedIn.middleware.js:43 | with the default empty role list nobody is admitted |
| AuthGate.ForeignRecordAdmits | backend/src/middlewares/isLoggedIn.middleware.js:50-55 | another user's record in the project admits the caller |
| AuthGate.OtherProjectRecordAdmits | backend/src/middlewares/isLoggedIn.middleware.js:50-55 | the caller's record in another project admits them |
| AuthGate.Request.IsLoggedIn | backend/src/middlewares/isLoggedIn.middleware.js:9-41 | throws, forwards an error or sets `req.user` and calls next exactly as `Authenticate` decides |
| AuthGate.Request.ValidateProjectPermission | backend/src/middlewares/isLoggedIn.middleware.js:43-69 | overwrites `req.user.role` when a record is found, then calls next once or throws, as `CheckPermission` decides |
| AuthGateSrc.Authenticate | src/middlewares/isLoggedIn.middleware.js:5-36 | 405 iff no cookie; 401 iff a cookie that does not resolve to a user; otherwise the resolved account |
| AuthGateSrc.SameAsBackendGate | src/middlewares/isLoggedIn.middleware.js:5-36 | for every input the outcome equals the server copy of the gate |
| AuthGateSrc.IsLoggedIn | src/middlewares/isLoggedIn.middleware.js:5-36 | throws, forwards or sets `req.user` and calls next as `Authenticate` decides |
| SrcUserController.Register | src/controllers/user.controllers.js:16-38 | a duplicate email gives 409 with nothing stored; otherwise one account is created and then `user.select` fails; unique emails are preserved |
| SrcUserController.RegisterStoresLowercasedUsername | src/controllers/user.controllers.js:27-32 | the stored username is lowercased, and email, fullname and password are stored as given |
| SrcUserController.SameIdentityAsBackend | src/controllers/user.controllers.js:19-32 | creates the same record as the server registration, except for the verification ticket |
| SrcUserController.RegisterUser | src/controllers/user.controllers.js:5-44 | new accounts and result are those of `Register` |
| ProjectModel.NewProjectDefaults | backend/src/models/project.models.js:31-44 | no members, member count 0, due 30 days after creation, status "not started" and priority "medium", both in their enums |
| ProjectModel.NewProjectValidIff | backend/src/models/project.models.js:5-15 | a new project passes the schema iff its trimmed name and its description are non-empty |
| ProjectModel.Create | backend/src/models/project.models.js:5-55 | creation succeeds iff the required fields are present; the result has a trimmed name and a member count equal to its member list |
| ProjectModel.ProjectDocument.PreSave | backend/src/models/project.models.js:52-55 | after the hook, memberCount equals members.length |
| ProjectController.IndexOfName | src/controllers/project.controllers.js:12 | the first project with the (trimmed) name, or -1 |
| ProjectController.CreateProject | src/controllers/project.controllers.js:8-43 | 401 when the trimmed name is taken; any failure leaves the store unchanged; on success one schema-valid project with the trimmed name and createdBy the caller is appended; unique names are preserved |
| ProjectController.UpdateProject | src/controllers/project.controllers.js:118-151 | no id gives 404, an unknown id 401, a trimmed name another project carries a duplicate-key error; success iff none of these, and then only name (trimmed) and description of that project change; unique names are preserved |
| ProjectController.RoleGuardAlwaysRejects | src/controllers/project.controllers.js:184 | `role !== "admin" \|\| role !== "project_admin"` holds for every role |
| ProjectController.ProjectStore.Create | src/controllers/project.controllers.js:8-43 | new projects and result are those of `CreateProject` |
| ProjectController.ProjectStore.Update | src/controllers/project.controllers.js:118-151 | new projects and result are those of `UpdateProject` |
| ProjectController.ProjectStore.AddMemberToProject | src/controllers/project.controllers.js:174-208 | `userId` is undefined, so every call ends in 400 and no membership is created |
| ProjectController.ProjectStore.DeleteMember | src/controllers/project.controllers.js:235-255 | the caller's own user document is looked up: if found the guard rejects with 403, otherwise reading `role` of null throws; nothing is deleted |
| ProjectController.ProjectStore.UpdateMemberRole | src/controllers/project.controllers.js:257-289 | `userId` is undefined, so reading `role` of the missing user fails; the role update is never reached |
| ValidationChain.Failures | src/validators/user.validators.js:10-14 | at most one error per check, each tagged with the field; empty iff every check holds |
| ValidationChain.FailuresAreFailingChecks | src/validators/user.validators.js:10-14 | the errors are exactly `{path, msg}` of the failing checks, in chain order |
| ValidationChain.CountedLength | src/validators/user.validators.js:13-14 | `isLength` counts characters except U+FE0E and U+FE0F; without those it is the plain length |
| ValidationChain.CountedLengthSkipsSelector | src/validators/user.validators.js:13-14 | a variation selector is not counted: "ab" + U+FE0F has length 3 and counted length 2 |
| ValidationChain.Run | src/validators/user.validators.js:5-24 | a chain reports no error iff every check holds on the (optionally trimmed) value |
| ValidationChain.RunAll | src/validators/user.validators.js:3-26 | a validator list passes iff each of its chains passes on its field |
| UserValidators.EmailRule | src/validators/user.validators.js:5-8 | email passes iff its trimmed form is non-empty and a valid email |
| UserValidators.UsernameRule | src/validators/user.validators.js:10-14 | username passes iff its trimmed counted length is 3 to 13 |
| UserValidators.PasswordRule | src/validators/user.validators.js:16-18 | password passes iff its untrimmed counted length is at least 3 |
| UserValidators.FullnameRule | src/validators/user.validators.js:20-24 | fullname passes iff its trimmed counted length is 3 to 23 |
| UserValidators.UsernameMessages | src/validators/user.validators.js:10-14 | a blank username reports "required" and "minimum"; an overlong one only "maximum" |
| UserValidators.RegistrationRule | src/validators/user.validators.js:3-26 | a registration body passes iff all four field rules hold |
| UserValidators.LoginRule | src/validators/user.validators.js:28-38 | a login body passes iff the email rule and the password minimum hold |
| ProjectValidators.NameRule | backend/src/validators/project.validators.js:6-8 | name passes iff non-empty after trimming, else "Project name is required." |
| ProjectValidators.DescriptionRule | backend/src/validators/project.validators.js:10-15 | description passes iff its untrimmed counted length is 3 to 220 |
| ProjectValidators.DescriptionMessages | backend/src/validators/project.validators.js:10-15 | each failing description rule reports its own message |
| ProjectValidators.DescriptionBoundaries | backend/src/validators/project.validators.js:10-15 | counted lengths 3 and 220 pass; 2 and 221 fail |
| ProjectValidators.CreateRule | backend/src/validators/project.validators.js:4-17 | a create body passes iff name and description rules hold |
| ProjectValidators.RoleRule | backend/src/validators/project.validators.js:21-24 | role passes iff its trimmed value is an available role, else the fixed message |
| SrcProjectValidators.NameRule | src/validators/project.validators.js:6-7 | name passes only when empty after trimming; a non-empty name gets "Project name is required." |
| SrcProjectValidators.DescriptionNeverPasses | src/validators/project.validators.js:10-14 | no description passes; the messages for empty, in-range and overlong descriptions |
| SrcProjectValidators.RejectsEveryBody | src/validators/project.validators.js:4-16 | every create body is rejected |
| TaskValidators.TitleNeverPasses | src/validators/task.validators.js:5-9 | no task title passes (isEmpty against min length 4) |
| TaskValidators.DescriptionNeverPasses | src/validators/task.validators.js:10-14 | no task description passes (isEmpty against min length 14) |
| TaskValidators.CreateTaskRejectsEveryBody | src/validators/task.validators.js:3-16 | every create-task body is rejected |
| TaskValidators.SubTaskTitleRule | src/validators/task.validators.js:20-25 | a subtask title passes iff its trimmed counted length is at least 3 |
| TaskValidators.TaskIdRule | src/validators/task.validators.js:26-29 | taskId passes iff non-empty after trimming |
| TaskValidators.SubTaskRule | src/validators/task.validators.js:18-31 | a subtask body passes iff both rules hold |
| ValidateMiddleware.Validate | src/middlewares/validator.middlewares.js:4-18 | no errors iff next is called; otherwise 422 with one `{path: msg}` entry per error, in order |
| ValidateMiddleware.EntryHasOneKey | src/middlewares/validator.middlewares.js:13-15 | each payload entry has exactly the error's path as key, mapped to its message |
| FileController.NatToString | src/controllers/file.controllers.js:43 | the decimal text of an id: non-empty, digits only |
| FileController.NatToStringRoundTrip | src/controllers/file.controllers.js:43 | reading the digits of `${id}` back gives the id |
| FileController.NatToStringInjective | src/controllers/file.controllers.js:43 | distinct ids render as distinct text |
| FileController.FolderPathInjective | src/controllers/file.controllers.js:42-44 | two folder paths are equal only for the same owner and the same id |
| FileController.FolderPrecheck | src/controllers/file.controllers.js:7-26 | no user 401; blank name 400; no parentId gives no response; a parent that is not the caller's folder 404; creation proceeds iff all pass |
| FileController.CreateFolderAsWritten | src/controllers/file.controllers.js:28-40 | as written, the `""` path and file URL fail the schema: nothing is stored and the error is returned exactly when the guards pass |
| FileController.CreateFolder | src/controllers/file.controllers.js:17-56 | corrected: the guards' outcomes; otherwise one folder is appended with trimmed name, size 0, type "folder", flags false, the caller as owner and path /folders/user/id |
| FileController.GetFiles | src/controllers/file.controllers.js:59-82 | reading `_id` of a missing `req.user` throws a TypeError; 401 iff the user has no id; otherwise exactly the caller's files whose parentId equals the query value (null when absent) |
| FileController.CreatedFolderIsListed | src/controllers/file.controllers.js:28-73 | a folder created under a parent appears in that parent's listing |
| FileController.CreateFolderAsWrittenStoresNothing | src/controllers/file.controllers.js:28-40 | for input the corrected handler accepts, the code as written stores nothing and reports a validation error |
| FileController.FileStore.CreateFolderRequest | src/controllers/file.controllers.js:6-57 | new files and outcome are those of `CreateFolder` |
| FileController.FileStore.CreateFolderRequestAsWritten | src/controllers/file.controllers.js:6-57 | the outcome is that of `CreateFolderAsWritten` and the store is untouched |
| FileController.FileStore.GetFilesByUserId | src/controllers/file.controllers.js:59-82 | the result is `GetFiles` on the current store |
| FileController.FileStore.UploadFiles | src/controllers/file.controllers.js:84-107 | 400 iff no file; 404 iff a parent is given that is not the caller's folder; otherwise the unbound upload call fails |
| FilesPage.FindFolder | frontend/src/pages/Files.jsx:70 | the first folder with the id, or -1 |
| FilesPage.FolderAt | frontend/src/pages/Files.jsx:380-391 | a found item is a folder whose id is the last path id; an empty path gives null |
| FilesPage.FolderAtSnoc | frontend/src/pages/Files.jsx:380-391 | extending a path by one id finds the first folder with that id at the root or among the children of the folder the path names, and nothing if there is none or the path names nothing; so every folder a path spells out is found |
| FilesPage.WalkReachesFolder | frontend/src/pages/Files.jsx:67-79 | when every path id matches, the walk of `getCurrentItems` (the helper `Descend`) ends at the children of the last folder |
| FilesPage.UnmatchedIdContrast | frontend/src/pages/Files.jsx:70-73 | an unmatched id leaves the walk at the current level, while `getFolderFromPath` returns null |
| FilesPage.Visible | frontend/src/pages/Files.jsx:76-78 | an item of the level is shown iff it is not trashed and its lowercased name contains the lowercased query |
| FilesPage.EmptyQueryShowsAll | frontend/src/pages/Files.jsx:76-78 | an empty query shows every non-trashed item |
| FilesPage.GetFolderFromPath | frontend/src/pages/Files.jsx:380-391 | the loop returns `FolderAt` of the path |
| FilesPage.FlattenAllConcat | frontend/src/pages/Files.jsx:82-90 | flattening distributes over concatenation |
| FilesPage.FlattenContainsLevels | frontend/src/pages/Files.jsx:82-90 | the flattening holds every top-level item and is closed under children, so it holds every descendant |
| FilesPage.StarredItems | frontend/src/pages/Files.jsx:81-93 | an item is in the starred view iff it is in the tree at any depth, starred and not trashed |
| FilesPage.TrashItems | frontend/src/pages/Files.jsx:95-107 | an item is in the trash view iff it is in the tree at any depth and trashed |
| FilesPage.StarredAndTrashDisjoint | frontend/src/pages/Files.jsx:81-107 | no item is in both views |
| FilesPage.GetAllItems | frontend/src/pages/Files.jsx:82-90 | the push/concat loop computes the pre-order flattening (the helpers `FlattenAll` and `FlattenOne`) |
| FilesPage.ItemCounts | frontend/src/pages/Files.jsx:109-113 | folders plus files equals the item count |
| FilesPage.UpdateFolder | frontend/src/pages/Files.jsx:173-187 | keeps length, ids and folder flags; items not on the path are unchanged; an empty path changes nothing |
| FilesPage.UpdateFolderLands | frontend/src/pages/Files.jsx:173-187 | the new folder lands at the end of the children of the folder at the path |
| FilesPage.CreateFolder | frontend/src/pages/Files.jsx:150-190 | a blank name changes nothing; at the root the folder is appended; inside a folder the top level keeps its length |
| FilesPage.CreateFolderInside | frontend/src/pages/Files.jsx:150-190 | inside a folder, the new folder (trimmed name, parent the current folder) is appended to its children |
| FilesPage.Toggle | frontend/src/pages/Files.jsx:305-312 | "star" flips only isStarred, "trash" flips only isTrash |
| FilesPage.UpdateItems | frontend/src/pages/Files.jsx:302-327 | keeps length and ids; matching items at this level are toggled; every other item keeps all its fields but its children (the per-item helper is `UpdateOne`) |
| FilesPage.UpdateKeepsOtherFlags | frontend/src/pages/Files.jsx:302-327 | every item of the updated tree, at any depth, is an old item toggled, an old match left as it was, or an old non-matching item with only its children changed |
| FilesPage.ToggleReachesNested | frontend/src/pages/Files.jsx:302-327 | with unique ids, the matching item at any depth appears toggled in the updated tree |
| FilesPage.ItemActionTwice | frontend/src/pages/Files.jsx:302-327 | the same action twice restores the tree |
| FilesPage.ItemActionAbsent | frontend/src/pages/Files.jsx:302-327 | an id found nowhere in the tree leaves it unchanged |
| FilesPage.PermanentDeleteAsWritten | frontend/src/pages/Files.jsx:329-348 | as written: removes exactly the top-level items with the id and keeps the rest unchanged |
| FilesPage.PermanentDelete | frontend/src/pages/Files.jsx:329-348 | corrected: no top-level item keeps the id (the per-item helper is `PruneOne`) |
| FilesPage.PermanentDeleteRemovesAll | frontend/src/pages/Files.jsx:329-348 | corrected: the id is absent at every depth afterwards |
| FilesPage.PermanentDeleteAbsent | frontend/src/pages/Files.jsx:329-348 | corrected: deleting an absent id changes nothing |
| FilesPage.PermanentDeleteAsWrittenKeepsNested | frontend/src/pages/Files.jsx:340-342 | a nested match survives the code as written but not the corrected delete |
| FilesPage.BreadcrumbClick | frontend/src/pages/Files.jsx:376-378 | the path becomes its prefix of length index+1, clamped to the path |
| FilesPage.ClickThenBreadcrumb | frontend/src/pages/Files.jsx:372-378 | a folder click followed by a breadcrumb click within the old path returns to that prefix |
| FilesPage.BreadcrumbShowsLabelledFolder | frontend/src/pages/Files.jsx:404-405 | after a breadcrumb click, the current items are the children of the folder that labels that breadcrumb |
| FilesPage.FilesState.GetCurrentItems | frontend/src/pages/Files.jsx:67-79 | the loop returns the visible items of the walked level |
| FilesPage.FilesState.GetStarredItems | frontend/src/pages/Files.jsx:81-93 | returns `StarredItems` of the files |
| FilesPage.FilesState.GetTrashItems | frontend/src/pages/Files.jsx:95-107 | returns `TrashItems` of the files |
| FilesPage.FilesState.HandleCreateFolder | frontend/src/pages/Files.jsx:150-199 | files become `CreateFolder`; on a non-blank name the name is cleared and the dialog closed, otherwise nothing changes |
| FilesPage.FilesState.HandleItemAction | frontend/src/pages/Files.jsx:302-327 | files become `UpdateItems` |
| FilesPage.FilesState.HandlePermanentDelete | frontend/src/pages/Files.jsx:329-348 | files become the corrected delete, and the id is absent everywhere |
| FilesPage.FilesState.HandlePermanentDeleteAsWritten | frontend/src/pages/Files.jsx:329-348 | as written: files become `PermanentDeleteAsWritten` of the old files; no other field changes |
| FilesPage.FilesState.HandleFolderClick | frontend/src/pages/Files.jsx:372-374 | the folder id is appended to the path |
| FilesPage.FilesState.HandleBreadcrumbClick | frontend/src/pages/Files.jsx:376-378 | the path is truncated as `BreadcrumbClick` says |
| KanbanBoard.WithoutId | frontend/src/components/KanbanBoard.jsx:252 | keeps every task with another id and only those |
| KanbanBoard.PrependTo | frontend/src/components/KanbanBoard.jsx:154-160 | keeps length, ids and titles of the columns; a column with the id gets the task at its head and keeps every other field; other columns are unchanged |
| KanbanBoard.TargetColumn | frontend/src/components/KanbanBoard.jsx:151-152 | always a board column; a column id maps to itself |
| KanbanBoard.AssigneeOf | frontend/src/components/KanbanBoard.jsx:138-142 | the email's local part as name and its first two characters uppercased as initials, or "Unknown"/"UN" when empty |
| KanbanBoard.AssigneeRoundTrip | frontend/src/components/KanbanBoard.jsx:139 | the assignee name of `name@domain` is `name` |
| KanbanBoard.CreateTask | frontend/src/components/KanbanBoard.jsx:133-160 | the target column keeps its id and title and gets the new task at its head; other columns are unchanged |
| KanbanBoard.DeleteTask | frontend/src/components/KanbanBoard.jsx:270-279 | the given column keeps its id and title and loses every task with the id; other columns are unchanged |
| KanbanBoard.CreateThenDelete | frontend/src/components/KanbanBoard.jsx:133-279 | deleting a just-created task by its fresh id restores the board |
| KanbanBoard.CreateAddsOne | frontend/src/components/KanbanBoard.jsx:154-160 | creating a task adds one to the total count |
| KanbanBoard.EditedTask | frontend/src/components/KanbanBoard.jsx:171-184 | keeps id, comments and labels; takes the attachments from the form |
| KanbanBoard.EditTask | frontend/src/components/KanbanBoard.jsx:168-200 | without an edited task nothing changes; otherwise every column keeps its id, title and other tasks in order, and the target column of the new status gets the edited task first |
| KanbanBoard.EditMovesTask | frontend/src/components/KanbanBoard.jsx:189-200 | the id leaves every column but the new one, where the edited task is at the head, exactly once |
| KanbanBoard.DuplicateTask | frontend/src/components/KanbanBoard.jsx:209-222 | the given column keeps its id and title and gets a copy with a new id and " (Copy)" appended at its head; other columns are unchanged |
| KanbanBoard.DropPriority | frontend/src/components/KanbanBoard.jsx:242-245 | the priority a drop assigns is low, medium or high |
| KanbanBoard.MoveBetween | frontend/src/components/KanbanBoard.jsx:247-264 | every column keeps its id; the source keeps its title and loses the id; the target keeps its title and gets the re-prioritised task at its head; other columns are unchanged |
| KanbanBoard.Drop | frontend/src/components/KanbanBoard.jsx:230-268 | no dragged task or source, or a drop on the source column, leaves the columns unchanged; otherwise `MoveBetween` |
| KanbanBoard.DropKeepsTotal | frontend/src/components/KanbanBoard.jsx:242-264 | with the id unique in its source column, a drop preserves the total task count |
| KanbanBoard.ArchiveCompleted | frontend/src/components/KanbanBoard.jsx:328-335 | empties the completed column and leaves the others unchanged |
| KanbanBoard.ArchiveRemovesCompleted | frontend/src/components/KanbanBoard.jsx:328-335 | the total drops by the size of the completed column |
| KanbanBoard.Board.constructor | frontend/src/components/KanbanBoard.jsx:10-117 | initial columns; no drag state, no edited task, closed dialog, default status "todo" |
| KanbanBoard.Board.HandleDragStart | frontend/src/components/KanbanBoard.jsx:119-122 | records the dragged task and its column |
| KanbanBoard.Board.HandleDragOver | frontend/src/components/KanbanBoard.jsx:124-127 | records the hovered column |
| KanbanBoard.Board.HandleDragLeave | frontend/src/components/KanbanBoard.jsx:129-131 | clears the hovered column |
| KanbanBoard.Board.HandleDrop | frontend/src/components/KanbanBoard.jsx:230-268 | columns become `Drop`; the hover is cleared; the drag state is cleared unless the early return is taken |
| KanbanBoard.Board.HandleCreateTask | frontend/src/components/KanbanBoard.jsx:133-166 | columns become `CreateTask` |
| KanbanBoard.Board.HandleEditTask | frontend/src/components/KanbanBoard.jsx:168-207 | columns become `EditTask` and the edited task is cleared |
| KanbanBoard.Board.HandleDuplicateTask | frontend/src/components/KanbanBoard.jsx:209-228 | columns become `DuplicateTask` |
| KanbanBoard.Board.HandleDeleteTask | frontend/src/components/KanbanBoard.jsx:270-286 | columns become `DeleteTask` |
| KanbanBoard.Board.HandleArchiveCompleted | frontend/src/components/KanbanBoard.jsx:328-340 | columns become `ArchiveCompleted` |
| KanbanBoard.Board.OpenEditDialog | frontend/src/components/KanbanBoard.jsx:297-300 | records the edited task and opens the dialog |
| KanbanBoard.Board.OpenAddTaskDialog | frontend/src/components/KanbanBoard.jsx:302-306 | default status is the column, or "todo"; no edited task; dialog open |
| KanbanBoard.Board.CloseTaskDialog | frontend/src/components/KanbanBoard.jsx:308-312 | closes the dialog, clears the edited task, resets the default status |
| TaskDialog.Extension | frontend/src/components/kanban/TaskDialog.jsx:43 | the lowercased text after the last dot, which holds no dot |
| TaskDialog.TypeOfExtension | frontend/src/components/kanban/TaskDialog.jsx:44-45 | "document" iff pdf/doc/docx, "image" iff png/jpg/jpeg/gif, otherwise "file"; `Classify` applies it to a file name's `Extension` |
| TaskDialog.ClassifyUpperCase | frontend/src/components/kanban/TaskDialog.jsx:43-45 | "report.PDF" is a document |
| TaskDialog.ClassifyLastDot | frontend/src/components/kanban/TaskDialog.jsx:43-45 | "photo.tar.png" is an image: the last dot decides |
| TaskDialog.ClassifyNoDot | frontend/src/components/kanban/TaskDialog.jsx:43-45 | "gif" without a dot is an image: the whole name is the extension |
| TaskDialog.AttachmentOf | frontend/src/components/kanban/TaskDialog.jsx:46-51 | the attachment keeps the file's name and URL and takes its classified type |
| TaskDialog.Upload | frontend/src/components/kanban/TaskDialog.jsx:38-58 | no file list changes nothing; otherwise one attachment per file is appended in order after the existing ones, and nothing else changes |
| TaskDialog.RemoveAttachment | frontend/src/components/kanban/TaskDialog.jsx:60-65 | exactly position i is removed and the rest keep their order; an index outside the list changes nothing |
| TaskDialog.UploadThenRemove | frontend/src/components/kanban/TaskDialog.jsx:38-65 | removing the attachment just uploaded restores the form |
| TaskDialog.Submit | frontend/src/components/kanban/TaskDialog.jsx:67-84 | submits iff the trimmed title is non-empty, then closes; create mode resets the form; a blank title changes nothing |
| TaskDialog.Cancel | frontend/src/components/kanban/TaskDialog.jsx:86-99 | closes without submitting; create mode resets the form, edit mode keeps it |
| TaskDialog.CreateModeResets | frontend/src/components/kanban/TaskDialog.jsx:22-30 | after submit or cancel in create mode the form is the default one, which cannot be submitted |
| ProjectFilters.Without | frontend/src/components/projects/ProjectFilters.jsx:55 | keeps every other value and only those |
| ProjectFilters.ToggleList | frontend/src/components/projects/ProjectFilters.jsx:52-59 | a present value is removed (every copy, all others kept); an absent one is appended |
| ProjectFilters.ToggleFilter | frontend/src/components/projects/ProjectFilters.jsx:52-59 | only the chosen list is toggled; the other dimension is unchanged |
| ProjectFilters.ClearAll | frontend/src/components/projects/ProjectFilters.jsx:61-63 | both lists are empty and no filter is active |
| ProjectFilters.AppliedCount | frontend/src/components/projects/ProjectFilters.jsx:70 | the count is positive iff a filter is active |
| ProjectFilters.ToggleTwiceRestoresIff | frontend/src/components/projects/ProjectFilters.jsx:52-59 | for a duplicate-free list, toggling twice restores it iff the value was absent or last |
| ProjectFilters.ToggleTwiceSameValues | frontend/src/components/projects/ProjectFilters.jsx:52-59 | toggling twice always restores the set of selected values |
| ProjectFilters.ToggleTwiceReorders | frontend/src/components/projects/ProjectFilters.jsx:52-59 | ["low", "high"] toggled twice on "low" becomes ["high", "low"] |
| ProjectFilters.ToggleChangesCountByOne | frontend/src/components/projects/ProjectFilters.jsx:158 | without duplicates, a toggle changes the applied count by exactly one |
| ProjectFilters.WithoutOnce | frontend/src/components/projects/ProjectFilters.jsx:55 | without duplicates, removing a present value shortens the list by one |
| ProjectsPage.FilteredProjects | frontend/src/pages/Projects.jsx:88-96 | null before loading; otherwise exactly the loaded projects that match the search, the status and both filter lists |
| ProjectsPage.NoConstraintShowsAll | frontend/src/pages/Projects.jsx:91-93 | an empty query, status "all" and empty lists show every project |
| ProjectsPage.StatusFiltersCombine | frontend/src/pages/Projects.jsx:91-92 | the sidebar status and the dialog's status list must both admit a project |
| ProjectsPage.ConfirmDelete | frontend/src/pages/Projects.jsx:152-163 | without a selection nothing happens; otherwise exactly the projects with another id remain, the dialog closes and the selection clears |
| ProjectsPage.Merge | frontend/src/pages/Projects.jsx:139-143 | the dialog's fields override the project's; id and other fields are kept |
| ProjectsPage.SubmitEdit | frontend/src/pages/Projects.jsx:131-144 | only projects with the selected id are replaced by the merge; the rest keep position and content |
| ProjectsPage.SubmitUnchangedFields | frontend/src/pages/Projects.jsx:139-144 | submitting a project's own fields changes nothing |
| ProjectsPage.EditAfterDeleteDoesNothing | frontend/src/pages/Projects.jsx:139-163 | after deletion an edit no longer reaches the deleted project |
| ProjectDetail.NormaliseStatus | frontend/src/pages/ProjectDetail.jsx:340 | keeps the length; a status without spaces is simply lowercased |
| ProjectDetail.ToDoReached | frontend/src/pages/ProjectDetail.jsx:338-342 | "To Do" normalises to the option "to-do" |
| ProjectDetail.InProgressReached | frontend/src/pages/ProjectDetail.jsx:338-342 | "In Progress" normalises to the option "in-progress" |
| ProjectDetail.CompletedReached | frontend/src/pages/ProjectDetail.jsx:338-342 | "Completed" normalises to the option "completed" |
| ProjectDetail.SecondSpaceKept | frontend/src/pages/ProjectDetail.jsx:340 | only the first space is replaced: "on hold now" becomes "on-hold now" |
| ProjectDetail.FilteredTasks | frontend/src/pages/ProjectDetail.jsx:337-353 | exactly the tasks that pass the status and task filters, in order |
| ProjectDetail.AllShowsEverything | frontend/src/pages/ProjectDetail.jsx:337-353 | with both selects on "all" every task is listed |
| ProjectDetail.HighPriorityNarrows | frontend/src/pages/ProjectDetail.jsx:343-345 | "high-priority" keeps exactly the high-priority tasks of the status-filtered list, in order |
| ProjectDetail.OverdueKeeps | frontend/src/pages/ProjectDetail.jsx:346-350 | "overdue" keeps a task iff its due date is before today or does not parse |
| ProjectDetail.UpdateRole | frontend/src/pages/ProjectDetail.jsx:184-189 | members with the id get the new role; every other field and member is unchanged, order included |
| ProjectDetail.UpdateRoleUndo | frontend/src/pages/ProjectDetail.jsx:184-189 | setting the current role changes nothing; giving back the old role undoes an update |
| ProjectDetail.UpdateRoleLastWins | frontend/src/pages/ProjectDetail.jsx:184-189 | of two updates of one member the later wins |
| ProjectDetail.DeleteNote | frontend/src/pages/ProjectDetail.jsx:212-215 | exactly the notes with another id remain |
| ProjectDetail.CopyOf | frontend/src/pages/ProjectDetail.jsx:233-238 | the copy has the new id, the title plus " (Copy)" and the new creation time; everything else is the original's |
| ProjectDetail.DuplicateNote | frontend/src/pages/ProjectDetail.jsx:230-244 | without a note of that id nothing changes; otherwise a copy of the first note with that id, under the new id and time, is prepended |
| ProjectDetail.DuplicateThenDeleteCopy | frontend/src/pages/ProjectDetail.jsx:212-244 | deleting the copy by its fresh id restores the notes |
| ProjectDetail.DeleteOriginalKeepsCopy | frontend/src/pages/ProjectDetail.jsx:212-244 | deleting the original after duplicating keeps the copy at the front |
| ProjectDetail.NoteAction | frontend/src/pages/ProjectDetail.jsx:202-262 | "delete" and "duplicate" change the notes; every other action leaves them unchanged |

## Left out

- Cryptography: hashing, JWT signing and verification, and password checks are function parameters. Nothing is implemented.
- Cookies, response serialisation, `ApiResponse`/`ApiError` formatting and `asyncHandler`: only status codes and messages are modelled.
- Email delivery, Cloudinary and multer: external I/O. The upload handler is modelled up to its unbound upload call.
- Database connection, server start and route wiring are not part of this model. No project route applies `validateProjectPermission`.
- The note and task controllers, `getProjectById` and `getProjectMembers` (aggregation queries) are not part of this model.
- Concurrency: the model is single-threaded, so racing ticket redemptions or refreshes are not modelled.
- Floating point: the file-size formatting and the completion-rate rounding are left out.
- Strings.ToLower / Strings.ToUpper: ASCII letters only, not full Unicode case mapping.
- ProjectDetail.FilteredTasks: dates are already-parsed time values (`None` for an Invalid Date); date parsing is not modelled.
- Toasts, console logging and dialog visuals are presentation only.
- `handleFilesUpload` and its progress simulation use timers and are left out. `handleProjectSelect` (Files page) is left out too.
- ProjectsPage.SubmitEdit: only the edit branch of `handleProjectSubmit`; the create branch awaits the network store.
- The zustand stores, which are HTTP clients, and the page, marketing and dialog components are left out.
- FilesPage.CreateFolder: the insertion inside a folder is stated through `CreateFolderInside` and `UpdateFolderLands`, for a path that names a folder; a path id that names nothing inserts nowhere, which `UpdateFolder` states only as "items off the path are unchanged".
- FileController.RequiredPathMissing: the Mongoose validation message is approximated; only the error kind and the failing fields are meant.
- FilesPage.ToggleReachesNested: stated for trees whose ids are unique, as Mongo ids and `folder-${Date.now()}` ids are; with a repeated id, a match nested under another match is not visited.
- FilesPage.PermanentDelete: the corrected delete is stated as "the id is absent at every depth" and "an absent id changes nothing", not as an item-by-item description of the pruned tree.

## Findings

| source | as written | input that shows it | evidently intended | confidence | as-written member | corrected member |
|---|---|---|---|---|---|---|
| backend/src/controllers/user.controllers.js:251-268 | `refreshToken` is read at :251 before the block-scoped `const { accessToken, refreshToken }` at :268, so the read throws; the catch at :286 turns it into 401, and `options` at :281 is undefined | any request with a refresh cookie that matches the stored value | rotate the pair on a match (:261-273) | high (not executed) | UserController.RefreshAsWritten | UserController.Refresh |
| backend/src/controllers/user.controllers.js:319-323 | the result of `generateTemporaryToken()` is not stored on the user, the URL interpolates an object, and `sendEmail` is not imported | any known email | store the ticket hash and expiry and mail the unhashed token | high (not executed) | UserController.ResendAsWritten | UserController.Resend |
| src/controllers/file.controllers.js:28-40 | the folder is created with `path: ""` and `fileUrl: ""`, which the schema declares required, so creation fails validation | a signed-in user, a name "docs", and a parentId naming their own folder | create the folder, then set its path to /folders/user/id | medium (not executed) | FileController.CreateFolderAsWritten | FileController.CreateFolder |
| frontend/src/pages/Files.jsx:340-342 | the `filter` callback returns an object for items with children, which is truthy, so the item is kept unchanged and nested matches survive | a folder "a" whose child "b" is deleted permanently | remove the id at every depth | high (not executed) | FilesPage.PermanentDeleteAsWritten | FilesPage.PermanentDelete |
