# Gym administration dashboard — a verified model of its core

This project models the client-side logic of a React dashboard for running gyms. The dashboard is used by super-admins, gym owners, front-desk staff, trainers and members. The model covers:

- **AuthContext**: the session store. It keeps token and user in state and mirrors both in the browser's key-value storage. It covers hydration, login, logout, user update and token verification.
- **Routes**: the route table. Four public pages and one guarded layout, whose children each carry their own allow-list of roles.
- **Register**: the registration page. It has an ordered form validation and builds a super-admin or tenant-with-owner request.
- **UserProfiles** and **ShowOwnerList**: the profile pages.
  - The `/auth/me` answer is merged with its `tenant` and `member` parts.
  - Sections are shown by role.
  - Values are read and written along dotted paths.
  - The profile page also has an edit / save / cancel cycle.
- **UserAddressCard**: a card of nine fixed fields that can be edited and saved.
- **Users**: the user-management page. It covers the list fetch, the create form, the role badge colours and the role choices.
- **CreateGymForm**: the gym-creation form. Its change handler dispatches on checkboxes, dotted names and plain names, and it edits the business-hours list.
- **CreateTrainerMember**, **CreateTrainer** and **CreateMember**: account-creation pages.
  - The payloads and the multipart body.
  - The required-field checks.
  - How failures map to messages.
  - The reset after success.
  - The role-filtered lists.
- **StaffPage**: splits the users into three lists by role.
- **ActiveDeactive**: tenant activation. It covers the status flip, the list update and the choice of the tenant list from the answer.
- **WorkoutPlans**: approving, rejecting and setting the default plan.
- **Availability**: the weekly availability grid and the selected-slot list read back from the keys.
- **MaterialUpload**: the list of uploaded instructional materials.

Shared modules:

- **Common**: `Option`, and `Call`, the outcome of one awaited backend call (returned or threw).
- **Strings**: `split` and `join` on one character, and the decimal text of an integer.
- **Json**: JavaScript values without arrays. It covers truthiness, the `a?.b?.c` lookup, the nested setter and the `show` display rule.

How the JavaScript is modelled:

- Every backend call is a parameter of the operation that awaits it, as a `Call` value or as the answer's relevant fields.
- State that a component keeps with `useState` and changes in handlers becomes a class. Each handler is a method with a `modifies` clause that states the whole new state.
- Pure helpers become functions.
- Loops stay loops:
  - the nested setter of `handleChange` on the profile page is `UserProfiles.ProfilePage.HandleChange`;
  - the `forEach` that builds the multipart body is `CreateMember.BuildBody`.

## Model

| member | source | states |
|---|---|---|
| Common.Filter | src/pages/Dashboard/superadminFeature/StaffPage.tsx:36-38 | `filter` keeps exactly the elements that satisfy the test, and only elements of the input |
| Common.FilterConcat | src/pages/Dashboard/superadminFeature/StaffPage.tsx:36-38 | filtering a concatenation is concatenating the filtered parts, i.e. the input order is kept |
| Strings.Split | src/pages/UserProfiles.tsx:110 | `split` gives at least one piece, at least two exactly when the separator occurs, and no piece contains the separator |
| Strings.JoinSplit | src/pages/UserProfiles.tsx:110 | joining the pieces of a split with the separator gives back the string |
| Strings.SplitJoin | src/pages/UserProfiles.tsx:110 | splitting the join of separator-free pieces gives back the pieces |
| Strings.SplitPrefix | src/pages/Dashboard/Frontdesk/AvailabilityPage.tsx:91 | a separator-free prefix followed by the separator is the first piece of the split |
| Strings.NatToString | src/pages/UserProfiles.tsx:55 | `String(n)` of a natural number is a non-empty run of digits without a leading zero (0 is exactly "0") whose decimal value is `n` |
| Strings.IntToString | src/pages/UserProfiles.tsx:55 | `String(n)` starts with a minus sign exactly for a negative number, and the signed decimal value of the text is `n` |
| Strings.IntToStringInjective | src/pages/UserProfiles.tsx:55 | different numbers are shown as different texts |
| Json.Member | src/pages/UserProfiles.tsx:110 | `acc?.[part]` is defined only on an object that has the key |
| Json.GetNestedValue | src/pages/UserProfiles.tsx:109-111 | a path without '.' reads the field of that name |
| Json.GetNestedValueStep | src/pages/UserProfiles.tsx:109-111 | `a.rest` reads `rest` below the field `a` |
| Json.Lookup | src/pages/UserProfiles.tsx:109-111 | the `reduce` over the path is undefined from an undefined start and is the start itself for an empty path |
| Json.LookupAppend | src/pages/UserProfiles.tsx:109-111 | looking a path up in two steps is looking up the concatenated path |
| Json.SetPath | src/pages/UserProfiles.tsx:114-126 | after a successful nested write the path reads back the written value, the top-level keys grow by at most the first component, and the other top-level fields are unchanged |
| Json.SetPathFailsOnPrimitive | src/pages/UserProfiles.tsx:119-122 | the nested write fails only when some proper prefix of the path reaches a truthy non-object value |
| Json.PrimitiveBlocksSetPath | src/pages/UserProfiles.tsx:119-122 | conversely, a truthy non-object value at a proper prefix of the path makes the nested write fail (the TypeError) |
| Json.EmptySetPathSucceeds | src/pages/UserProfiles.tsx:119-123 | on an empty object every nested write succeeds, since falsy intermediates are replaced by `{}` |
| Json.SetPathKeepsOtherPaths | src/pages/UserProfiles.tsx:114-126 | a nested write leaves every path that leaves the written path at some component reading what it read before |
| Json.EmptyLookupBelowFalsy | src/pages/UserProfiles.tsx:110 | any non-empty path below a falsy value is undefined |
| Json.EmptyLookup | src/pages/UserProfiles.tsx:110 | any non-empty path in an empty object is undefined |
| Json.InputValue | src/pages/UserProfiles.tsx:206 | an input shows `value \|\| ""`: a truthy value itself, otherwise the empty string |
| Json.Show | src/pages/UserProfiles.tsx:52-56 | `show` gives "NA" for a falsy value, the stringified text for an object, the string itself, "true", or the decimal text of a number |
| UserProfiles.Spread | src/pages/UserProfiles.tsx:33-34 | `...(x \|\| {})` contributes an object's fields, or nothing when `x` is falsy |
| UserProfiles.Merge | src/pages/UserProfiles.tsx:31-35 | the merged profile has the keys of the answer, its tenant and its member; a member field beats a tenant field, and both beat the answer's own field |
| UserProfiles.MergeWithoutParts | src/pages/UserProfiles.tsx:31-35 | without a truthy tenant or member the merge is the answer itself |
| UserProfiles.VisibleSections | src/pages/UserProfiles.tsx:90-106 | General Info is always first, Contact Info second whenever shown, no section twice, and every section is defined; Business appears iff owner, Member iff member, Trainer iff trainer, Contact iff member, trainer, frontdesk or manager, so any other role sees only General Info |
| UserProfiles.ProfilePage.constructor | src/pages/UserProfiles.tsx:17-20 | no user, loading, not editing, empty form |
| UserProfiles.ProfilePage.FieldShown | src/pages/UserProfiles.tsx:194-210 | edit mode iff an input; in edit mode the input holds a truthy form value itself and the empty string for a missing or falsy one; otherwise the text is "NA" for a falsy value of the user and `show` of a truthy one |
| UserProfiles.ProfilePage.FetchProfile | src/pages/UserProfiles.tsx:22-47 | on success user and form both become the merged answer; on failure they stay; loading ends on both paths |
| UserProfiles.ProfilePage.Edit | src/pages/UserProfiles.tsx:156 | the page enters edit mode |
| UserProfiles.ProfilePage.HandleChange | src/pages/UserProfiles.tsx:114-126 | the loop of the nested setter succeeds iff the one-shot nested write does and leaves the form equal to its result; the TypeError case is reported as failure (see Left out) |
| UserProfiles.ProfilePage.HandleSave | src/pages/UserProfiles.tsx:129-143 | success makes the form the user, leaves edit mode and alerts "Profile updated successfully ✅"; failure changes neither and alerts "Update failed ❌" |
| UserProfiles.ProfilePage.Cancel | src/pages/UserProfiles.tsx:170-173 | the form becomes the user again and edit mode ends |
| UserProfiles.EditThenCancel | src/pages/UserProfiles.tsx:170-173 | load, edit any path, cancel: the form and the user both equal the merged answer again |
| UserProfiles.EditThenSave | src/pages/UserProfiles.tsx:129-143 | load, edit a path, save: the shown user reads the new value at that path, or is the loaded one when the write failed |
| UserProfiles.Synced | src/pages/UserProfiles.tsx:37-38 | `setUser(merged); setFormData(merged)` makes user and form the same object, with every nested object shared |
| UserProfiles.ChangeAsWritten | src/pages/UserProfiles.tsx:114-126 | the nested setter applied to the shared objects succeeds iff the nested write does, gives the form that write's result, and keeps user and form sharing their nested objects |
| UserProfiles.NestedWriteGivesObject | src/pages/UserProfiles.tsx:119-121 | after a nested write through two or more components, the first component holds an object |
| UserProfiles.CancelAsWritten | src/pages/UserProfiles.tsx:170-173 | `setFormData(user)` as written: the form becomes the user object itself, every object-valued key shared again |
| UserProfiles.NestedEditReachesUser | src/pages/UserProfiles.tsx:114-126 | with the objects shared, an edit below a shared object is also seen by the user, and cancel leaves it in the form |
| UserProfiles.CancelKeepsNestedEdit | src/pages/UserProfiles.tsx:170-173 | for the profile in Pune, editing `location.city` to Delhi and pressing Cancel leaves Delhi in the form |
| ShowOwnerList.Merge | src/pages/Dashboard/ShowOwnerList.tsx:36-41 | the `owner` field is the tenant's owner when that is truthy and is undefined otherwise; every other field is the profile page's merge |
| ShowOwnerList.VisibleSections | src/pages/Dashboard/ShowOwnerList.tsx:96-112 | as on the profile page, plus "Owner Info" at the end exactly for an owner |
| ShowOwnerList.OwnerFieldsWithoutOwner | src/pages/Dashboard/ShowOwnerList.tsx:138-146 | without a truthy tenant owner every `owner.*` field shows "NA" |
| ShowOwnerList.OwnerFieldsFromTenant | src/pages/Dashboard/ShowOwnerList.tsx:40 | with a tenant owner object, `owner.x` reads that owner's own `x` |
| ShowOwnerList.OwnerListPage.constructor | src/pages/Dashboard/ShowOwnerList.tsx:24-25 | no user and loading |
| ShowOwnerList.OwnerListPage.FetchProfile | src/pages/Dashboard/ShowOwnerList.tsx:28-52 | success shows the merged answer; failure keeps the old user; loading ends |
| AuthContext.LoginError | src/context/AuthContext.tsx:87-95 | a rejected answer fails with "Invalid login response"; a thrown call with its own message |
| AuthContext.AuthProvider.constructor | src/context/AuthContext.tsx:43-51 | token and user are read back from storage, the state mirrors storage, and children are not rendered while loading |
| AuthContext.AuthProvider.Login | src/context/AuthContext.tsx:77-96 | an answer with token and user stores and installs both and authenticates; any other outcome rethrows and leaves the session; loading ends |
| AuthContext.AuthProvider.Logout | src/context/AuthContext.tsx:98-103 | both storage keys are removed, both halves are cleared, and the session is not authenticated |
| AuthContext.AuthProvider.UpdateUser | src/context/AuthContext.tsx:105-108 | the user is replaced in state and storage and the token is kept |
| AuthContext.AuthProvider.VerifyUser | src/context/AuthContext.tsx:56-75 | `/auth/me` is called iff there is a token and no user; a returned user is installed, anything else logs out; children render afterwards |
| AuthContext.SignInScenario | src/context/AuthContext.tsx:77-96 | a login with token and owner is authenticated with role "owner" |
| AuthContext.ReloadWithRejectedToken | src/context/AuthContext.tsx:56-75 | a stored token that `/auth/me` rejects ends unauthenticated, with the token removed |
| AuthContext.ReloadAfterLogout | src/context/AuthContext.tsx:43-53 | a reload after logout is not authenticated |
| AuthContext.AuthenticatedIffStored | src/context/AuthContext.tsx:53 | `isAuthenticated` holds exactly when storage holds a non-empty token and a user, so a reload keeps it |
| AuthContext.ChildrenAfterVerify | src/context/AuthContext.tsx:122 | children are hidden from hydration until the token check is over, and shown after it |
| Routes.PublicPathsMembers | src/routes/index.tsx:28-31 | a path is public iff some public entry of the table has it |
| Routes.PublicPathsOfTable | src/routes/index.tsx:28-31 | the public paths of the table are `/`, `/signin`, `/signup`, `/register`, in order |
| Routes.GuardedRoutesMembers | src/routes/index.tsx:33-39 | a route is guarded iff it is a child of some guarded layout |
| Routes.AllowedRoles | src/routes/index.tsx:40-165 | a path has an allow-list iff some route declares it, and then it is that route's list |
| Routes.GuardedRoutesAreChildren | src/routes/index.tsx:33-165 | the table's guarded routes are the fifteen children of the layout |
| Routes.PublicAndGuarded | src/routes/index.tsx:28-39 | exactly `/`, `/signin`, `/signup`, `/register` are public, and the only guarded layout is the last entry |
| Routes.EveryGuardedRouteHasRoles | src/routes/index.tsx:40-165 | every guarded route has a non-empty allow-list |
| Routes.PathsAreUnique | src/routes/index.tsx:28-169 | no two entries share a path, and the commented-out `/unauthorized` and `*` are absent |
| Routes.AllowedAt | src/routes/index.tsx:40-165 | looking up a child's path gives that child's own allow-list |
| Routes.PublicAndChildPathsDiffer | src/routes/index.tsx:28-165 | no public path is a guarded path, and no guarded path is `/unauthorized` or `*` |
| Routes.UniqueChildPaths | src/routes/index.tsx:40-165 | the children's paths are pairwise distinct |
| Routes.FirstMatch | src/routes/index.tsx:40-165 | with distinct paths, the lookup of a route's path finds that route |
| Routes.PermitsAt | src/routes/index.tsx:40-165 | a child admits a role iff the role is in its allow-list |
| Routes.UsersRoute | src/routes/index.tsx:57-62 | `/users` admits exactly superadmin and owner |
| Routes.SuperadminOnlyRoutes | src/routes/index.tsx:64-106 | the five admin pages admit superadmin and no other role |
| Routes.ManagerAdmittedNowhere | src/routes/index.tsx:40-165 | no guarded route admits `manager` |
| Routes.NoManagerList | src/routes/index.tsx:40-165 | no child's allow-list contains `manager` |
| Routes.MemberAndTrainerAdmitted | src/routes/index.tsx:43 | member and trainer are admitted on `/home`, `/trainer/profile`, `/trainer/showlist` |
| Routes.MemberAndTrainerRoutes | src/routes/index.tsx:40-165 | only `/home`, `/trainer/profile` and `/trainer/showlist` list member or trainer |
| Routes.MemberAndTrainerNowhereElse | src/routes/index.tsx:40-165 | member and trainer are admitted nowhere else |
| Register.RegisterPage.SetRegistrationType | src/pages/AuthPages/Register.tsx:154-165 | the type buttons set the registration type and keep the form |
| Register.With | src/pages/AuthPages/Register.tsx:39-45 | the input handler changes exactly the named field |
| Register.ValidateForm | src/pages/AuthPages/Register.tsx:47-71 | the form is valid iff all fields are present, the passwords match, the password has at least 6 characters and, for a tenant, the tenant fields are present |
| Register.ValidateFormOrder | src/pages/AuthPages/Register.tsx:47-71 | each message is reported iff its check is the first to fail, in the source's order |
| Register.TenantFieldsOnlyForTenant | src/pages/AuthPages/Register.tsx:62-68 | for a super-admin registration the tenant fields do not affect validation |
| Register.BuildRequest | src/pages/AuthPages/Register.tsx:80-99 | a super-admin request carries name, email, password; a tenant request carries the tenant fields and the form's account as owner |
| Register.SuccessMessage | src/pages/AuthPages/Register.tsx:88-99 | the success text names the account created (it starts with "Super Admin" exactly for a super-admin) and ends with " You can now login." |
| Register.FailureMessage | src/pages/AuthPages/Register.tsx:118 | the error's own message when non-empty, else "Registration failed. Please try again." |
| Register.RegisterPage.constructor | src/pages/AuthPages/Register.tsx:21-35 | super-admin mode, empty form, no messages, not loading |
| Register.RegisterPage.HandleInputChange | src/pages/AuthPages/Register.tsx:39-45 | the named field changes and the error is cleared |
| Register.RegisterPage.HandleSubmit | src/pages/AuthPages/Register.tsx:72-122 | an invalid form shows the first failing message and sends nothing; otherwise the request is sent, success resets the form and shows the success text, failure keeps the form and shows the error |
| WorkoutPlans.Approve | src/pages/Dashboard/Frontdesk/ManageWorkoutPlans.tsx:53-55 | the plans with the id become approved; the others are unchanged |
| WorkoutPlans.Reject | src/pages/Dashboard/Frontdesk/ManageWorkoutPlans.tsx:57-63 | the plans with the id become rejected and lose the default flag; the others are unchanged |
| WorkoutPlans.SetDefault | src/pages/Dashboard/Frontdesk/ManageWorkoutPlans.tsx:65-67 | the default flag holds exactly on the plans with the id |
| WorkoutPlans.DescriptionsKept | src/pages/Dashboard/Frontdesk/ManageWorkoutPlans.tsx:53-67 | no operation changes a plan's id, name, trainer, days or focus |
| WorkoutPlans.SetDefaultKeepsOneDefault | src/pages/Dashboard/Frontdesk/ManageWorkoutPlans.tsx:65-67 | with unique ids at most one plan is the default afterwards |
| WorkoutPlans.ApproveRejectKeepOneDefault | src/pages/Dashboard/Frontdesk/ManageWorkoutPlans.tsx:53-63 | approve and reject keep "at most one default" |
| WorkoutPlans.InitialPlansWellFormed | src/pages/Dashboard/Frontdesk/ManageWorkoutPlans.tsx:14-48 | the initial plans have unique ids and plan "1" is the only default |
| WorkoutPlans.OfferedActionsProgress | src/pages/Dashboard/Frontdesk/ManageWorkoutPlans.tsx:129-152 | approving a pending plan makes it offer Set Default; rejecting it leaves no button |
| Availability.Toggled | src/pages/Dashboard/Frontdesk/AvailabilityPage.tsx:27-33 | the clicked slot flips, and every other slot keeps its value |
| Availability.ToggleTwice | src/pages/Dashboard/Frontdesk/AvailabilityPage.tsx:27-33 | two clicks on one slot restore whether every slot is on |
| Availability.Grid | src/pages/Dashboard/Frontdesk/AvailabilityPage.tsx:56-62 | 105 cells, a cell for every day and time shown, and no key twice, so a click toggles one cell only |
| Availability.SlotKey | src/pages/Dashboard/Frontdesk/AvailabilityPage.tsx:28 | splitting a key built from a day and a time without '-' gives back that day and that time |
| Availability.CellKeysDistinct | src/pages/Dashboard/Frontdesk/AvailabilityPage.tsx:56-62 | cells that differ in day or time have different keys |
| Availability.CellsCoverWeek | src/pages/Dashboard/Frontdesk/AvailabilityPage.tsx:56-62 | the cell of row `j` and column `i` is among the cells |
| Availability.SlotLabel | src/pages/Dashboard/Frontdesk/AvailabilityPage.tsx:91 | the day shown is the first piece of the key's split |
| Availability.GridLabels | src/pages/Dashboard/Frontdesk/AvailabilityPage.tsx:85-91 | each cell's selected item shows that cell's own day and time |
| Availability.AvailabilityPage.constructor | src/pages/Dashboard/Frontdesk/AvailabilityPage.tsx:22-24 | nothing selected and no keys |
| Availability.AvailabilityPage.SelectedSlots | src/pages/Dashboard/Frontdesk/AvailabilityPage.tsx:85-91 | the list holds exactly the slots that are on, each once |
| Availability.AvailabilityPage.ToggleSlot | src/pages/Dashboard/Frontdesk/AvailabilityPage.tsx:27-33 | the slot flips; a key seen first goes last in key order; keys stay distinct and within the grid |
| Availability.SelectedOf | src/pages/Dashboard/Frontdesk/AvailabilityPage.tsx:88-90 | the keys that are on, each once, and exactly the `filter` of the key order by whether the slot is on |
| Availability.ClickTwiceScenario | src/pages/Dashboard/Frontdesk/AvailabilityPage.tsx:27-33 | clicking one cell twice from the start selects nothing |
| StaffPage.ListsByRole | src/pages/Dashboard/superadminFeature/StaffPage.tsx:36-38 | each list holds exactly the users with its role |
| StaffPage.ListsDisjoint | src/pages/Dashboard/superadminFeature/StaffPage.tsx:36-38 | the lists are pairwise disjoint; owners and managers are in none |
| StaffPage.ListsFitInInput | src/pages/Dashboard/superadminFeature/StaffPage.tsx:36-38 | the three lists together are no longer than the input |
| StaffPage.ListsKeepOrder | src/pages/Dashboard/superadminFeature/StaffPage.tsx:36-38 | each list keeps the input order |
| ActiveDeactive.NewStatus | src/pages/Dashboard/superadminFeature/ActiveDeactive.tsx:45 | the new status is "inactive" iff the current one is "active", else "active" |
| ActiveDeactive.FlipTwice | src/pages/Dashboard/superadminFeature/ActiveDeactive.tsx:45 | two flips restore "active" and "inactive"; any other status comes back "inactive" |
| ActiveDeactive.ButtonLabel | src/pages/Dashboard/superadminFeature/ActiveDeactive.tsx:99-105 | the button reads Deactivate iff the click sets "inactive", Activate iff it sets "active" |
| ActiveDeactive.UpdateStatus | src/pages/Dashboard/superadminFeature/ActiveDeactive.tsx:53-57 | the tenants with the id take the status; the others are unchanged |
| ActiveDeactive.ClickTwiceRestores | src/pages/Dashboard/superadminFeature/ActiveDeactive.tsx:40-62 | with unique ids, two clicks on one tenant restore the list |
| ActiveDeactive.ToggleStatus | src/pages/Dashboard/superadminFeature/ActiveDeactive.tsx:40-62 | no token: nothing; else the new status is sent for `tenantId` and applied to `_id` only on success; failure alerts |
| ActiveDeactive.SelectTenants | src/pages/Dashboard/superadminFeature/ActiveDeactive.tsx:30 | `docs`, else the data, else []: an array is chosen even when empty; a page object without `docs` is no list |
| ActiveDeactive.FetchTenants | src/pages/Dashboard/superadminFeature/ActiveDeactive.tsx:17-38 | no token: "No token found", no request; a failure "Failed to fetch tenants" with an empty list; success the selected list |
| Users.OrElse | src/pages/Dashboard/Users.tsx:59-63 | `a \|\| b` on strings |
| Users.HueOf | src/pages/Dashboard/Users.tsx:112-126 | each colour is chosen iff its case matches; gray exactly for member and every unknown role |
| Users.BadgeClasses | src/pages/Dashboard/Users.tsx:112-126 | the class list starts with the background class `bg-<colour>-100` of its colour |
| Users.RoleBadgeColor | src/pages/Dashboard/Users.tsx:112-126 | the badge of a role is the class list of its case's colour, whose background class names that colour |
| Users.BadgeClassesDiffer | src/pages/Dashboard/Users.tsx:112-126 | different colours give different class lists |
| Users.SameBadgeSameCase | src/pages/Dashboard/Users.tsx:112-126 | two roles get the same badge iff they fall in the same case |
| Users.RoleOptions | src/pages/Dashboard/Users.tsx:209-214 | member, front desk, trainer in order; a fourth option exactly for an owner, and it is manager |
| Users.UsersPage.constructor | src/pages/Dashboard/Users.tsx:31-41 | no users, loading, no error, form hidden and reset to the member role |
| Users.UsersPage.FetchUsers | src/pages/Dashboard/Users.tsx:49-69 | the list is replaced only on `success` with `data`; otherwise the answer's error or the fallback is shown |
| Users.UsersPage.SetField | src/pages/Dashboard/Users.tsx:174-206 | each input changes exactly its own field |
| Users.UsersPage.HandleCreateUser | src/pages/Dashboard/Users.tsx:72-110 | a missing name, email or password: error and no request; otherwise the form is posted; success resets, hides and refetches; failures show `msg` or the fallback |
| CreateGymForm.InitialDefaults | src/pages/Dashboard/CreateGymForm.tsx:12-40 | monthly, auto-renew, India, sole proprietorship, and business hours of one empty monday entry |
| CreateGymForm.SectionWith | src/pages/Dashboard/CreateGymForm.tsx:55-61 | the section's own fields with one key set |
| CreateGymForm.Changed | src/pages/Dashboard/CreateGymForm.tsx:42-68 | only the written top-level field changes (the section of a dotted name, otherwise the name): a checkbox reads back `checked`, a plain input its text, and `section.key` reads back the text |
| CreateGymForm.DottedChangeIsLocal | src/pages/Dashboard/CreateGymForm.tsx:53-61 | `section.key` is set and every sibling and every other field is unchanged |
| CreateGymForm.GymFormPage.constructor | src/pages/Dashboard/CreateGymForm.tsx:12-40 | the initial fields and hours |
| CreateGymForm.GymFormPage.HandleChange | src/pages/Dashboard/CreateGymForm.tsx:42-68 | the fields become the changed record |
| CreateGymForm.GymFormPage.HandleBusinessHoursChange | src/pages/Dashboard/CreateGymForm.tsx:70-81 | entry `index` changes in its one field and nothing else; an index out of range throws and changes nothing |
| CreateTrainerMember.Payload | src/pages/Dashboard/adminFeature/CreateTrainerMember.tsx:66-76 | the five common fields, and `specialization` iff the role is trainer |
| CreateTrainerMember.PayloadSizes | src/pages/Dashboard/adminFeature/CreateTrainerMember.tsx:66-76 | six fields for a trainer, five for a member |
| CreateTrainerMember.Changed | src/pages/Dashboard/adminFeature/CreateTrainerMember.tsx:51-59 | the named field changes; unknown names change nothing |
| CreateTrainerMember.Submit | src/pages/Dashboard/adminFeature/CreateTrainerMember.tsx:61-100 | the payload is sent; success resets the form, toasts and refetches; failure toasts `msg` or the fallback |
| CreateTrainerMember.UsersFrom | src/pages/Dashboard/adminFeature/CreateTrainerMember.tsx:41 | `res.data.users \|\| []` |
| CreateTrainerMember.ListsByRole | src/pages/Dashboard/adminFeature/CreateTrainerMember.tsx:102-103 | trainers and members are exactly the users of their role, disjoint, together no more than the input |
| CreateTrainer.ErrorText | src/pages/Dashboard/Frontdesk/CreateTrainer.tsx:48 | the answer's error when present, else "Something went wrong!" |
| CreateTrainer.TrainerCreatePage.constructor | src/pages/Dashboard/Frontdesk/CreateTrainer.tsx:5-16 | empty form, not loading, no message |
| CreateTrainer.TrainerCreatePage.HandleChange | src/pages/Dashboard/Frontdesk/CreateTrainer.tsx:20-23 | exactly the named field changes |
| CreateTrainer.TrainerCreatePage.HandleSubmit | src/pages/Dashboard/Frontdesk/CreateTrainer.tsx:25-53 | a missing field: "All fields are required." and no request; else the form is posted, success shows its message and empties the form, failure shows the error text; loading ends |
| CreateTrainer.SubmitTwice | src/pages/Dashboard/Frontdesk/CreateTrainer.tsx:25-53 | a complete form succeeds, and submitting the emptied form right after is refused |
| CreateMember.Entries | src/pages/Dashboard/Frontdesk/CreateMember.tsx:23-33 | one entry per member key, in the order name, email, phone, planType, address, dob, gender, trainerId, password, no key twice |
| CreateMember.Body | src/pages/Dashboard/Frontdesk/CreateMember.tsx:81-87 | every text part is a member entry with a non-empty value; only the last part can be a file, and it is the image exactly when one was chosen |
| CreateMember.BodyContents | src/pages/Dashboard/Frontdesk/CreateMember.tsx:81-87 | a key is sent with a value iff that is the member's entry and the value is non-empty; an image part iff that image was chosen |
| CreateMember.FailureMessage | src/pages/Dashboard/Frontdesk/CreateMember.tsx:109-117 | 401 first, then the answer's error, then the generic message |
| CreateMember.CreateMemberPage.constructor | src/pages/Dashboard/Frontdesk/CreateMember.tsx:23-38 | empty member with gender "male", no image, no trainers, no messages |
| CreateMember.CreateMemberPage.FetchTrainers | src/pages/Dashboard/Frontdesk/CreateMember.tsx:41-55 | the trainer list is the fetched users whose role is trainer |
| CreateMember.CreateMemberPage.HandleChange | src/pages/Dashboard/Frontdesk/CreateMember.tsx:57-61 | exactly the named field changes |
| CreateMember.CreateMemberPage.HandleImageChange | src/pages/Dashboard/Frontdesk/CreateMember.tsx:63-67 | a chosen file replaces the image; none keeps it |
| CreateMember.CreateMemberPage.HandleSubmit | src/pages/Dashboard/Frontdesk/CreateMember.tsx:69-118 | no token: "User is not authenticated." and nothing sent; else the body is sent, success resets form and image, failure shows the mapped message |
| CreateMember.BuildBody | src/pages/Dashboard/Frontdesk/CreateMember.tsx:81-87 | the loop appends exactly the truthy entries in order, then the image |
| UserAddressCard.FixedFieldsShape | src/component/UserProfile/UserAddressCard.tsx:18-28 | nine fields with distinct keys |
| UserAddressCard.GetFieldValue | src/component/UserProfile/UserAddressCard.tsx:76-78 | a truthy value itself, else "NA" |
| UserAddressCard.ViewsAgree | src/component/UserProfile/UserAddressCard.tsx:86-112 | both views (`DisplayRows`, `EditRows`) show the fixed labels in order; a truthy value reads the same in both; a missing or falsy one shows "NA" as text and an empty input |
| UserAddressCard.AddressCard.constructor | src/component/UserProfile/UserAddressCard.tsx:31-34 | no user, loading, not editing, empty form |
| UserAddressCard.AddressCard.FetchProfile | src/component/UserProfile/UserAddressCard.tsx:36-53 | success sets user and form to the answer; loading ends |
| UserAddressCard.AddressCard.Edit | src/component/UserProfile/UserAddressCard.tsx:115 | the card enters edit mode |
| UserAddressCard.AddressCard.HandleChange | src/component/UserProfile/UserAddressCard.tsx:55-57 | the named field of the form becomes the typed text |
| UserAddressCard.AddressCard.HandleSave | src/component/UserProfile/UserAddressCard.tsx:59-70 | success makes the form the user and leaves edit mode; failure changes neither |
| UserAddressCard.EditAndSave | src/component/UserProfile/UserAddressCard.tsx:55-70 | after editing one field and saving, that row shows the new text and every other row is unchanged |
| MaterialUpload.InitialIdsDistinct | src/pages/Dashboard/Frontdesk/InstructionalMaterialUpload.tsx:10-14 | three initial materials with distinct ids |
| MaterialUpload.UploadPage.constructor | src/pages/Dashboard/Frontdesk/InstructionalMaterialUpload.tsx:17-20 | the initial materials and empty inputs, type pdf |
| MaterialUpload.UploadPage.SetFileName | src/pages/Dashboard/Frontdesk/InstructionalMaterialUpload.tsx:50 | the file-name input sets the file name |
| MaterialUpload.UploadPage.SetFileType | src/pages/Dashboard/Frontdesk/InstructionalMaterialUpload.tsx:59 | the type select sets the type |
| MaterialUpload.UploadPage.SetMember | src/pages/Dashboard/Frontdesk/InstructionalMaterialUpload.tsx:71 | the member input sets the member |
| MaterialUpload.UploadPage.UploadMaterial | src/pages/Dashboard/Frontdesk/InstructionalMaterialUpload.tsx:22-34 | an empty name or member changes nothing; otherwise the material is appended and the inputs reset |
| MaterialUpload.AppendKeepsIdsDistinct | src/pages/Dashboard/Frontdesk/InstructionalMaterialUpload.tsx:25-30 | an unused id keeps the ids distinct |
| MaterialUpload.TwoUploads | src/pages/Dashboard/Frontdesk/InstructionalMaterialUpload.tsx:22-34 | two uploads append two materials after the initial three, ids distinct |

## Left out

- Network transport, headers, URLs and the `api` service wrappers. Each awaited call is a parameter: it either returns a value or throws an error with a message.
- `ProtectedRoute` is not part of this model. Only the route table it reads is modelled.
- Rendering, CSS and toasts. Alerts, toasts and messages are returned strings or page fields.
- Concurrency. Interleaved async handlers and React StrictMode's double invocation are not modelled. `Users.UsersPage.HandleCreateUser` returns a `refetch` flag instead of calling `fetchUsers`.
- JSON arrays, and property access on primitives. Lookups below a string or number are undefined here, while JavaScript reads e.g. `"abc".length`.
- `JSON.stringify` formatting is a parameter of `Json.Show`. Parsing and serialising a stored user is taken to be an exact round trip.
- UTF-16 length: `Register.ValidateForm` measures password length in characters.
- `Date.now()` is the `newId` parameter of `MaterialUpload.UploadPage.UploadMaterial`.
- `MaterialUpload.AppendKeepsIdsDistinct`: needs the new id to be unused. Two uploads within one millisecond would collide.
- The register page's delayed navigation after success.
- `CreateGymForm.GymFormPage.HandleBusinessHoursChange`: the source writes the entry in place inside a shallow copy of the list, so the previous state's entry object is mutated too. The model replaces the entry in a new sequence. The visible result is the same.
- `CreateGymForm.GymFormPage.HandleChange`: the business hours are held in a separate field. An input named `businessHours` is assumed not to exist.
- Object key insertion order is modelled only where the page depends on it (`Availability.AvailabilityPage.keys`).
- `UserProfiles.ProfilePage.HandleChange`: a truthy primitive on the path makes the nested write throw a TypeError inside the state updater. React runs that updater while rendering, so the uncaught error breaks the page. The model reports `false` and keeps the form instead.
- `UserProfiles.ProfilePage.HandleChange` and `UserProfiles.ProfilePage.Cancel` model the intended value-copy behaviour, in which the page's user is untouched by an edit. The source as written shares nested objects between user and form; `UserProfiles.ChangeAsWritten` and `UserProfiles.CancelAsWritten` model that (see Findings).
- `UserProfiles.ChangeAsWritten` tracks only objects shared between user and form, not objects shared inside one merged object. After the tenant spread, `merged.location` and `merged.tenant.location` are one object, so the source's in-place write of `location.city` also changes `tenant.location.city` (and Save sends it); the model leaves `tenant.location.city` as loaded. `Json.SetPathKeepsOtherPaths` likewise describes the value-copy reading. No shown section reads a `tenant.*` path.
- `Json.Json`: numbers are integers (`JNum(n: int)`). Fractional numbers such as 72.5, and the text `show` gives for them, are not represented.
- `AuthContext.AuthProvider.constructor`: requires readable storage. A stored `user` holding text that is not JSON makes `JSON.parse` throw in the state initializer, which breaks the page; that case is excluded. Only storage the app wrote itself is covered by the reload round trip.
- Spreading a string or number (`...("x")`): `UserProfiles.Spread` contributes nothing for any non-object.
- `ShowOwnerList.Merge`: when the tenant owner is falsy, `owner` is left out of the object rather than set to `undefined`. Every lookup reads the same.
- `ActiveDeactive.SelectTenants`: when a page object has no `docs`, the source keeps that object as the "list". The model returns `None`.
- The login email and password arguments. They reach only the backend, which the call outcome stands for.
- `CreateTrainerMember.Submit` and the user fetches of the trainer/member pages: a failed fetch only toasts, which is left out.
- `ShowOwnerList.OwnerListPage.ValueShown` has no contract of its own. The owner-section lemmas state what it shows.

## Findings

| source | as written | input that shows it | evidently intended | confidence | as-written member | corrected member |
|---|---|---|---|---|---|---|
| src/pages/UserProfiles.tsx:37-38, 114-126, 170-173 | `user` and `formData` are set to the same merged object. `handleChange` copies only the top level, then writes into the nested objects in place. So an edit below a nested object also changes `user`, and Cancel (`setFormData(user)`) does not undo it. | profile `{role: "owner", location: {city: "Pune"}}`; edit `location.city` to "Delhi"; press Cancel | Cancel restores the loaded profile; edits reach only the form until Save | not executed | UserProfiles.CancelKeepsNestedEdit | UserProfiles.EditThenCancel |
