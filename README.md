# Complaints Dashboard: a Dafny model of the console's core

This project models the Angular console of the Complaints Dashboard. The
console lets staff sign in, browse complaints, maintain agencies, manage
user and staff accounts, and read analytics charts. The model covers the
rules these pages apply:

- who may create which kind of account, and the ordered checks of the two
  add-user forms;
- the login page's validation, its guard against a second request while one
  is pending, and how a sign-in response fills the session and the browser
  storage;
- the route guard, the HTTP interceptor, and the sidebar and root component
  that match URLs against route prefixes;
- the query parameters and form data the users and analytics services build;
- the analytics chart data, including the in-place descending sort of the
  agency and type responses;
- the agency list, and the complaint status and type lookups.

Each component is a `class` holding the component's fields. Its methods
update them as the TypeScript does. An HTTP call is appended to the
component's `issued` log. Its outcome is an argument of a separate handler
method for the `next` or `error` callback. `localStorage` is a
`LocalStorage` object over a string map, and the router is a `Router`
object that records the navigations it is asked for. Things JavaScript
decides at run time are explicit in the model:

- truthiness, and `a || b || fallback` (`Browser.Truthy`,
  `Browser.FirstTruthy`);
- `undefined` and `null` values (`Option`);
- the confirmation dialog (a `bool` argument).

The module layout follows the source: one module per core file
(`Users`, `UserService`, `Auth`, `GeneralManagement`,
`GeneralManagementService`, `Agencies`, `Complaints`, `App`, `Sidebar`,
`AuthGuard`, `AuthInterceptor`). Shared helpers sit in separate modules:

- `Wrappers`: `Option` and `Result`;
- `Text`: `includes`, `trim`, ASCII case mapping and number printing;
- `Browser`: storage, router, HTTP errors and truthiness;
- `Http`: `HttpParams` and `FormData`;
- `Models`: the interface files' records and enums.

## Model

| member | source | states |
|---|---|---|
| Users.CanAddAdmins | src/app/users/users.component.ts:118-120 | an admin may add staff accounts and no other role may; whoever may do so may also add users |
| Users.CanAddUsers | src/app/users/users.component.ts:122-125 | admins and staff admins may add users; no other role may, complaint staff, plain users and unknown roles included |
| Users.AvailableTargetRoles | src/app/users/users.component.ts:256-268 | the offered roles are non-empty iff the user may add users; staff admin is offered iff the user may add admins; no role is offered twice; each caption is that role's display name; an admin gets staff admin then complaint staff, a staff admin gets complaint staff alone |
| Users.StaffFormError | src/app/users/users.component.ts:215-230 | the staff form passes iff email, phone and target role are set, it is not a staff admin creating a staff admin, and complaint staff has an agency; a missing field is reported before anything else; complaint staff without an agency on an otherwise complete form gets the agency message |
| Users.ShouldShowAgencyId | src/app/users/users.component.ts:251-253 | the agency field shows iff the target role's code is `complaint_staff`, never for a staff admin |
| Users.FilterQuery | src/app/users/users.component.ts:99-104 | the query carries the role and the search term exactly when non-empty, `isActive` whenever the active filter is set (true only for "true"), and no other field |
| Users.OnlyStaffAdminIsLimited | src/app/users/users.component.ts:221-224 | on a complete form the role check fires exactly for current role `staff_admin` with target `staff_admin` |
| Users.OfferedRolesPass | src/app/users/users.component.ts:215-230 | any role the select offers, on a complete form with an agency where required, passes every check |
| Users.HiddenAgencyNeverBlocks | src/app/users/users.component.ts:226-229 | while the agency field is hidden the agency check never fires |
| Users.UserFormError | src/app/users/users.component.ts:191-194 | the user form is refused iff email or phone is empty, with "Email and phone are required" |
| Users.RoleDisplayName | src/app/users/users.component.ts:301-309 | known roles get their table name; an unknown role is returned unchanged |
| Users.RoleBadgeClass | src/app/users/users.component.ts:291-299 | known roles get their table class; an unknown role gets `badge-default` |
| Users.KnownRolesDistinct | src/app/users/users.component.ts:291-309 | the four known roles have four different badge classes, none of them the default, and four different display names |
| Users.FilterParams | src/app/users/users.component.ts:99-104 | the list request sends `role` and `search` only when those filters are non-empty, `isActive` as "true"/"false" whenever that filter is set, and no other key |
| Users.ClearedFiltersSendNothing | src/app/users/users.component.ts:327-332 | with the filters cleared the list request has no parameters |
| Users.UsersComponent.constructor | src/app/users/users.component.ts:16-55 | the initial field values; the staff form starts with role staff admin |
| Users.UsersComponent.LoadCurrentUser | src/app/users/users.component.ts:71-72 | asks for the current user and changes nothing else |
| Users.UsersComponent.OnCurrentUserLoaded | src/app/users/users.component.ts:73-91 | success stores the user and its role; on error in the browser, the stored user's role or "" is used |
| Users.UsersComponent.LoadUsers | src/app/users/users.component.ts:95-104 | sets loading, clears the error and issues one list request with the filter query |
| Users.UsersComponent.OnUsersLoaded | src/app/users/users.component.ts:105-114 | the items replace the list (absent items give []); an error keeps the list and shows the message or "Failed to load users"; loading ends |
| Users.UsersComponent.ToggleAddUserForm | src/app/users/users.component.ts:127-133 | flips the user form and closes the staff form, so both are never open; closing resets the user form and the error |
| Users.UsersComponent.ToggleAddAdminForm | src/app/users/users.component.ts:135-141 | flips the staff form and closes the user form; closing resets the staff form and the error |
| Users.UsersComponent.ResetUserForm | src/app/users/users.component.ts:143-154 | empties the user form and the picture and clears the error |
| Users.UsersComponent.ResetAdminForm | src/app/users/users.component.ts:156-166 | empties the staff form with role staff admin and clears the error |
| Users.UsersComponent.OnProfilePictureSelected | src/app/users/users.component.ts:168-171 | a chosen file becomes the picture to upload |
| Users.UsersComponent.RemoveProfilePicture | src/app/users/users.component.ts:180-182 | drops the picture and its preview |
| Users.UsersComponent.AddUser | src/app/users/users.component.ts:190-199 | a refused form sets the error with no request and isSubmitting unchanged; otherwise it submits the form and the picture |
| Users.UsersComponent.OnUserCreated | src/app/users/users.component.ts:200-211 | success reloads, resets and closes the form; an error shows `message`, else `error`, else "Failed to create user"; isSubmitting ends false |
| Users.UsersComponent.AddAdmin | src/app/users/users.component.ts:214-235 | the first failing check sets its message with no request and isSubmitting unchanged; only a passing form is submitted |
| Users.UsersComponent.OnStaffCreated | src/app/users/users.component.ts:236-247 | success reloads, resets and closes the staff form; an error shows the server text or "Failed to create staff" |
| Users.UsersComponent.DeleteUser | src/app/users/users.component.ts:270-280 | a declined dialog changes nothing; an admin is refused with "Cannot delete admin user" and no request; any other user is deleted by id |
| Users.UsersComponent.OnUserDeleted | src/app/users/users.component.ts:281-288 | success reloads the list; an error shows the message or "Failed to delete user" |
| Users.UsersComponent.ClearFilters | src/app/users/users.component.ts:327-332 | the three filters are emptied before the reload |
| Auth.InputError | src/app/auth/auth.component.ts:46-56 | without ".com" the email error is reported whatever the password; with a valid email a password under 8 characters is reported; the input passes iff both checks hold |
| Auth.InvalidEmailIff | src/app/auth/auth.component.ts:46 | the length check is implied, so the email is refused exactly when it lacks ".com" |
| Auth.LoginToken | src/app/auth/auth.component.ts:72-74 | a token exists iff the response has a non-empty `accessToken` or `accesToken`, the former preferred |
| Auth.RefreshToStore | src/app/auth/auth.component.ts:83-89 | a non-empty string is stored as it is, an object's non-empty `token` field is stored, otherwise nothing |
| Auth.SessionRole | src/app/auth/auth.component.ts:96 | the user's non-empty role, else "user" |
| Auth.StoredAfterLogin | src/app/auth/auth.component.ts:79-92 | both token keys hold the token, `refreshToken` is overwritten only when there is a new one (a stale one is kept otherwise), `user` holds the serialised user, and every other key is kept |
| Auth.LoginUnlocksGuard | src/app/auth/auth.component.ts:79-80 | after a login the route guard allows navigation and the users service sends "Bearer " + token |
| Auth.LogoutLocksGuard | src/app/sidebar/sidebar.component.ts:19-24 | after logout clears what a login stored, the guard denies navigation |
| Auth.SessionTokenIsSent | src/app/auth/auth.component.ts:95 | the session token a login sets is the one the interceptor attaches to non-login requests |
| Auth.SessionService.constructor | src/app/auth/auth.component.ts:95-96 | the session starts with no token and no role |
| Auth.AuthComponent.constructor | src/app/auth/auth.component.ts:20-31 | the form starts empty in state Success |
| Auth.AuthComponent.Login | src/app/auth/auth.component.ts:46-66 | bad input sets Failure and its message even while Loading; valid input while Loading does nothing; otherwise the state becomes Loading and one sign-in request is issued |
| Auth.AuthComponent.OnLoginResponse | src/app/auth/auth.component.ts:67-115 | with a token, storage becomes `StoredAfterLogin`, the session gets the token and role, and the state is Success; without one, storage and session are untouched and the state is Failure with the message or the fallback |
| Auth.AuthComponent.OnLoginError | src/app/auth/auth.component.ts:117-125 | Failure with the body's message, else the error's message, else "Login failed" |
| GeneralManagement.FormatStatusLabel | src/app/general-management/general-management.component.ts:174-177 | the label keeps the length, has no underscore and equals the spaced input up to case; capitals appear only at word starts, and every word starting with a letter is capitalised |
| GeneralManagement.FormatInProgress | src/app/general-management/general-management.component.ts:174-177 | "IN_PROGRESS" becomes "In Progress" |
| GeneralManagement.StatusColor | src/app/general-management/general-management.component.ts:136-147 | the five upper-case codes get their colour, every other status `#6b7280` |
| GeneralManagement.LowerCaseCodesAreGrey | src/app/general-management/general-management.component.ts:136-147 | each lower-case complaint status code gets the fallback grey |
| GeneralManagement.StatusChart | src/app/general-management/general-management.component.ts:144-148 | one bar per entry in the same order, with the count as value, the formatted label and the status colour |
| GeneralManagement.SortByCountDescending | src/app/general-management/general-management.component.ts:154-155 | the array is left in non-increasing count order and is a permutation of its old contents |
| GeneralManagement.SinkEntry | src/app/general-management/general-management.component.ts:155 | one insertion step extends the sorted prefix by one entry and keeps the contents |
| GeneralManagement.Swap | src/app/general-management/general-management.component.ts:155 | exchanges two entries and keeps the rest |
| GeneralManagement.AgencyChart | src/app/general-management/general-management.component.ts:156-160 | the first min(10, n) entries, in order, as name and count |
| GeneralManagement.TopTenDominates | src/app/general-management/general-management.component.ts:154-156 | on sorted data the bars are non-increasing and no agency left off outnumbers one shown |
| GeneralManagement.TypeChart | src/app/general-management/general-management.component.ts:166-171 | every entry, none dropped, as type name and count |
| GeneralManagement.GetMaxValue | src/app/general-management/general-management.component.ts:184-187 | 0 for no bars, otherwise one of the values and at least every value |
| GeneralManagement.Total | src/app/general-management/general-management.component.ts:215-218 | 0 for no bars; with non-negative values the total is non-negative and at least every single value |
| GeneralManagement.StatusTotalIsCountSum | src/app/general-management/general-management.component.ts:215-218 | the status chart's total equals the sum of the response's counts |
| GeneralManagement.MaxAtMostTotal | src/app/general-management/general-management.component.ts:184-187 | with non-negative values the largest bar lies between 0 and the total |
| GeneralManagement.QueryParams | src/app/general-management/general-management.component.ts:61-70 | each date is present iff its filter is non-empty, converted to ISO form |
| GeneralManagement.ClearedDatesSendNothing | src/app/general-management/general-management.component.ts:189-193 | with both dates cleared the analytics calls send no parameters |
| GeneralManagement.AllLoads | src/app/general-management/general-management.component.ts:54-58 | five loads, all with the same query |
| GeneralManagement.StatusTotalIsCountSumAt | src/app/general-management/general-management.component.ts:215-218 | the same total for the chart a component holds |
| GeneralManagement.GeneralManagementComponent.constructor | src/app/general-management/general-management.component.ts:22-39 | every field starts empty or null |
| GeneralManagement.GeneralManagementComponent.LoadAllAnalytics | src/app/general-management/general-management.component.ts:47-59 | sets loading, clears the error and issues the five loads with the date query |
| GeneralManagement.GeneralManagementComponent.ClearDateFilters | src/app/general-management/general-management.component.ts:189-193 | both dates are emptied, then the five loads go out without dates |
| GeneralManagement.GeneralManagementComponent.OnPerformanceLoaded | src/app/general-management/general-management.component.ts:73-83 | success stores the statistics; an error sets "Failed to load performance statistics"; loading ends |
| GeneralManagement.GeneralManagementComponent.PrepareStatusChartData | src/app/general-management/general-management.component.ts:133-149 | rebuilds the status chart from the response, or changes nothing without one |
| GeneralManagement.GeneralManagementComponent.PrepareAgencyChartData | src/app/general-management/general-management.component.ts:151-161 | sorts the stored response itself and charts its top ten, or changes nothing without one |
| GeneralManagement.GeneralManagementComponent.PrepareTypeChartData | src/app/general-management/general-management.component.ts:163-172 | sorts the stored response itself and charts all of it, or changes nothing without one |
| GeneralManagement.GeneralManagementComponent.OnStatusLoaded | src/app/general-management/general-management.component.ts:88-91 | stores the response and rebuilds the status chart |
| GeneralManagement.GeneralManagementComponent.OnAgencyLoaded | src/app/general-management/general-management.component.ts:100-103 | stores the response array, sorts it in place and charts it |
| GeneralManagement.GeneralManagementComponent.OnTypeLoaded | src/app/general-management/general-management.component.ts:112-115 | stores the response array, sorts it in place and charts it |
| GeneralManagement.GeneralManagementComponent.OnResolutionLoaded | src/app/general-management/general-management.component.ts:124-126 | stores the resolution statistics |
| GeneralManagement.GeneralManagementComponent.TotalStatusCount | src/app/general-management/general-management.component.ts:215-218 | on a chart built from the stored response, the sum of its counts |
| UserService.AuthHeaders | src/app/users/user.service.ts:15-21 | exactly `Authorization` ("Bearer " + the stored token) and the JSON content type |
| UserService.AuthHeadersFormData | src/app/users/user.service.ts:23-28 | only the `Authorization` header |
| UserService.HeaderWithoutToken | src/app/users/user.service.ts:16-18 | without `accessToken` or `token` the header reads "Bearer null" |
| UserService.GetAllSteps | src/app/users/user.service.ts:41-47 | the seven guarded `set` calls name distinct keys |
| UserService.GetAllParams | src/app/users/user.service.ts:38-48 | no query gives no parameters; every key sent is one the query gives a value to send |
| UserService.GetAllParamsLookup | src/app/users/user.service.ts:38-48 | no query gives no parameters; otherwise each key reads back its expected value: strings only when non-empty, numbers only when non-zero, booleans whenever defined, unknown keys nothing |
| UserService.GetAllStepValue | src/app/users/user.service.ts:41-47 | the first `set` for each key carries its expected value |
| UserService.GetAllTailValue | src/app/users/user.service.ts:44-47 | the same for page, limit, search and orderBy |
| UserService.ZeroPageOmittedFalseFlagSent | src/app/users/user.service.ts:43-44 | page 0 is omitted while `isActive: false` is sent as "false" |
| UserService.UserDtoFields | src/app/users/user.service.ts:64-72 | the create form's five properties, all defined strings |
| UserService.UserDtoForms | src/app/users/user.service.ts:64-72 | for the users page's form, `createUser` sends all five properties in declaration order, empty strings included; the profile update sends exactly the non-empty ones |
| UserService.KeptFields | src/app/users/user.service.ts:67-72 | never more entries than properties, all of them text |
| UserService.KeptFieldsConcat | src/app/users/user.service.ts:67-72 | keeping distributes over concatenation, so entries stay in key order |
| UserService.KeptFieldsMembers | src/app/users/user.service.ts:67-72 | an entry is sent iff the DTO has that key with that defined, non-null value (non-empty for the profile update) |
| UserService.UpdateFormIsSubsetOfCreateForm | src/app/users/user.service.ts:94-99 | the profile update sends a subset of what `createUser` sends, and drops the empty strings `createUser` keeps |
| UserService.PictureEntry | src/app/users/user.service.ts:74-76 | the picture entry exists iff a picture is given |
| UserService.CreateUserForm | src/app/users/user.service.ts:64-76 | the form is the kept DTO entries in key order, empty strings included, then the picture if given |
| UserService.UpdateProfileForm | src/app/users/user.service.ts:91-103 | as above with empty strings dropped |
| GeneralManagementService.AuthHeaders | src/app/general-management/general-management.service.ts:29-37 | outside the browser the header is "Bearer null"; in the browser it carries the stored token |
| GeneralManagementService.BuildSteps | src/app/general-management/general-management.service.ts:41-46 | the two guarded `set` calls name distinct keys |
| GeneralManagementService.BuildParams | src/app/general-management/general-management.service.ts:39-48 | no query gives no parameters, and no key other than the two dates is ever sent |
| GeneralManagementService.BuildParamsLookup | src/app/general-management/general-management.service.ts:39-48 | each date is sent iff it is a non-empty string, no other key is sent, and no query gives no parameters |
| Agencies.SubmittedName | src/app/agency/agency.component.ts:55-63 | no name iff the input is blank; otherwise the non-empty infix of the input left after cutting only whitespace from either end, with no whitespace at its ends |
| Agencies.AgencyComponent.constructor | src/app/agency/agency.component.ts:14-22 | the initial field values |
| Agencies.AgencyComponent.LoadAgencies | src/app/agency/agency.component.ts:29-33 | sets loading, clears the error and issues the list request |
| Agencies.AgencyComponent.OnAgenciesLoaded | src/app/agency/agency.component.ts:34-43 | the response replaces the list wholesale; an error keeps it with the message or the fallback; loading ends |
| Agencies.AgencyComponent.ToggleAddForm | src/app/agency/agency.component.ts:46-52 | flips the form; closing clears the name and error, opening keeps them |
| Agencies.AgencyComponent.AddAgency | src/app/agency/agency.component.ts:54-63 | a blank name sets "Agency name is required" with no request; otherwise the trimmed name is sent |
| Agencies.AgencyComponent.OnAgencyCreated | src/app/agency/agency.component.ts:64-75 | success appends at the end and closes the form with the name cleared; failure keeps the list and shows the message or the fallback; isSubmitting ends false |
| Complaints.StatusClass | src/app/complaints/complaints.component.ts:41-49 | the four listed codes get their classes, every other code the grey fallback |
| Complaints.TypeLabel | src/app/complaints/complaints.component.ts:51-60 | the five codes get their labels; an unknown code is shown as it is |
| Complaints.ComplaintsComponent.constructor | src/app/complaints/complaints.component.ts:14-18 | starts loading with an empty list |
| Complaints.ComplaintsComponent.LoadComplaints | src/app/complaints/complaints.component.ts:24-28 | sets loading, clears the error and issues the request |
| Complaints.ComplaintsComponent.OnComplaintsLoaded | src/app/complaints/complaints.component.ts:29-37 | success replaces the list; an error keeps it with the message or "Failed to load complaints"; loading ends either way |
| Complaints.StatusClassOfEnum | src/app/complaints/complaints.component.ts:41-49 | of the five enum codes only `awaiting_info` falls back to grey, and the other four get four different classes |
| Complaints.TypeLabelOfEnum | src/app/complaints/complaints.component.ts:51-60 | every enum code gets a label different from its code, and different codes get different labels |
| App.ShowSidebar | src/app/app.component.ts:29-33 | the sidebar is hidden iff the URL is `/login` or starts with `/login/` |
| App.ShowSidebarIsNotLoginActive | src/app/app.component.ts:32 | visibility is the negation of the sidebar's active test for `/login` |
| App.ShowSidebarExamples | src/app/app.component.ts:31-32 | `/loginx`, `/complaints` and `/` show the sidebar; `/login` and `/login/reset` hide it |
| App.SomeRouteMatches | src/app/app.component.ts:31-32 | `some` holds iff one route equals the URL or is followed in it by `/` |
| App.Replay | src/app/app.component.ts:17-26 | after any sequence of navigation events the visibility depends on the latest URL alone |
| App.AppComponent.constructor | src/app/app.component.ts:17-19 | the initial visibility comes from the router's URL |
| App.AppComponent.UpdateSidebarVisibility | src/app/app.component.ts:29-33 | the new visibility is that of the given URL |
| Sidebar.RouteActive | src/app/sidebar/sidebar.component.ts:15-17 | active iff the URL equals the route or continues it with `/` |
| Sidebar.ActiveExamples | src/app/sidebar/sidebar.component.ts:16 | `/complaints/5` is active for `/complaints`; `/complaintsX` and `/complaint` are not |
| Sidebar.ClearedSession | src/app/sidebar/sidebar.component.ts:20-23 | exactly the four session keys are removed; every other key keeps its value |
| Sidebar.SidebarComponent.IsActive | src/app/sidebar/sidebar.component.ts:15-17 | active iff the router's URL equals the route or starts with the route followed by `/` |
| Sidebar.SidebarComponent.Logout | src/app/sidebar/sidebar.component.ts:19-25 | storage becomes the cleared session, then the router is sent to `/login` |
| AuthGuard.Guard | src/app/utils/auth.guard.ts:6-27 | always allows outside the browser; in the browser allows iff `accessToken` or `token` is non-empty; a denial redirects to `/login` |
| AuthGuard.FallbackTokenAllows | src/app/utils/auth.guard.ts:17-21 | an empty `accessToken` with a non-empty `token` still allows |
| AuthGuard.CanActivate | src/app/utils/auth.guard.ts:6-27 | returns the guard's decision and navigates to `/login` only on a denial |
| AuthInterceptor.Intercept | src/app/utils/auth.interceptor.ts:5-27 | with a non-empty token on a non-login request, one header `Authorization: Bearer <token>` is added and the rest is kept; otherwise the request is forwarded unchanged |
| AuthInterceptor.IsLoginRequest | src/app/utils/auth.interceptor.ts:9 | a login request iff `/auth/signin` occurs in the URL; every URL starting with it is one, and none shorter than it is |
| AuthInterceptor.AttachesIff | src/app/utils/auth.interceptor.ts:9-15 | the header is attached iff the token is non-empty and the URL does not contain `/auth/signin` |
| AuthInterceptor.SignInUrlIsLoginRequest | src/app/utils/auth.interceptor.ts:9 | the sign-in URL `/api/auth/signin` is a login request and is forwarded unchanged |
| AuthInterceptor.UsersUrlGetsBearer | src/app/utils/auth.interceptor.ts:15-20 | `/api/user` with a token gets the bearer header |
| Browser.FirstTruthy | src/app/users/users.component.ts:207 | `a \|\| b \|\| fallback`: the first truthy candidate, the fallback when none is |
| Browser.StoredToken | src/app/users/user.service.ts:16 | `accessToken` when non-empty, else whatever `token` holds; missing only when both are absent or empty-and-absent |
| Browser.BearerValue | src/app/users/user.service.ts:18 | "Bearer " followed by the token, or by "null" |
| Browser.GetItem | src/app/utils/auth.guard.ts:17 | `getItem` returns the stored value iff the key is present, `null` otherwise |
| Browser.LocalStorage.SetItem | src/app/auth/auth.component.ts:79 | the key now holds the value; nothing else changes |
| Browser.LocalStorage.RemoveItem | src/app/sidebar/sidebar.component.ts:20 | the key is gone; nothing else changes |
| Browser.Router.Navigate | src/app/sidebar/sidebar.component.ts:24 | the navigation is recorded; the URL is unchanged |
| Text.Contains | src/app/utils/auth.interceptor.ts:9 | `includes` holds iff the substring occurs at some index |
| Text.TrimEmptyIff | src/app/agency/agency.component.ts:55 | the trimmed string is empty iff every character is whitespace |
| Text.TrimIsInfix | src/app/agency/agency.component.ts:63 | the trimmed string is a contiguous part of the input |
| Text.TrimStart | src/app/agency/agency.component.ts:63 | drops only a whitespace prefix and keeps the rest as it is |
| Text.TrimEnd | src/app/agency/agency.component.ts:63 | drops only a whitespace suffix and keeps the rest as it is |
| Text.ToLower | src/app/general-management/general-management.component.ts:175 | the same length, each character mapped by its ASCII lower-case |
| Text.NatToString | src/app/users/user.service.ts:44-45 | a non-empty string of decimal digits with no leading zero (just "0" for zero) |
| Text.IntToString | src/app/users/user.service.ts:44-45 | a minus sign iff the number is negative, followed by decimal digits with no leading zero whose value is the number's magnitude |
| Text.Trim | src/app/agency/agency.component.ts:63 | never longer than the input, and neither starting nor ending with whitespace |
| Text.NatToStringRoundTrip | src/app/users/user.service.ts:44-45 | reading back the printed digits of a number gives the number |
| Http.Get | src/app/users/user.service.ts:41-47 | a key reads back a value iff a pair with that key is present |
| Http.Set | src/app/users/user.service.ts:41 | `set` replaces the first pair with that key in place, keeping every other pair and the order, and otherwise appends |
| Http.SetThenGet | src/app/users/user.service.ts:41-47 | after `set` the key reads back the new value and other keys are unaffected |
| Http.StepValueNamesKey | src/app/users/user.service.ts:41-47 | a key gets a value from a list of `set` calls only when one of the calls names that key |
| Http.ApplyStepsGet | src/app/users/user.service.ts:39-48 | on distinct keys, each key reads back the value of its step when that step's guard holds, and the old value otherwise |

## Left out

- The complaint record-locking, edit-timeout, paging and submitter-enrichment flow: no component implements it.
- HTTP transport, Observables and subscriptions: each call is a request in an `issued` log, and each outcome is a handler argument.
- The error callbacks of the status, agency, type and resolution-time loads only log, so they have no model.
- Console logging, `event.preventDefault()`, and the login page's `setTimeout` navigation to `/complaints`.
- The `FileReader` preview in `onProfilePictureSelected` and the DOM reset of the file input in `removeProfilePicture`.
- The PDF report download (blob URL and link click), `getBarWidth` and `getStatusPercentage`: these use floating-point arithmetic.
- Every `formatDate` (`toLocaleDateString`) and `new Date(d).toISOString()`. The ISO conversion is a function argument of `QueryParams`; an invalid date, on which it throws, is not modelled.
- `JSON.stringify` of the user in `OnLoginResponse`: its output is an argument.
- `JSON.parse` of the stored user in `OnCurrentUserLoaded`: its result is an argument, `None` when parsing fails.
- `applyFilters`, which only calls `loadUsers` (`LoadUsers`).
- `editingUser` and `getOne`/`deleteMe` of the users service, which no core component uses.
- The route tables, environment files, dependency injection and decorators.
- GeneralManagement.FormatStatusLabel: case mapping covers ASCII letters only, and lengths count characters rather than UTF-16 code units.
- Auth.InputError: `email.length` and `password.length` count characters rather than UTF-16 code units, so a password of astral-plane characters (four emoji, length 8 in JavaScript) is refused by the model and accepted by the page.
- GeneralManagement.SortByCountDescending: proved to give non-increasing order and a permutation. That entries with equal counts keep their order (the stability of `Array.prototype.sort`) is not proved.
- Counts are integers; `NaN` and fractional counts from the backend are not modelled.
- The lookup tables are plain maps. Keys such as `constructor`, which a JavaScript object literal inherits from `Object.prototype`, are not modelled.
- `CreateStaffDto.targetRole` is `None` for a role select with no value, the case the `!targetRole` check guards; other non-union strings are not modelled.
