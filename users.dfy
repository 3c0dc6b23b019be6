/** The users page: the role rules that decide who may create which kind of
    account, the validation of the two add-forms, deleting users and the
    list filters. */
module Users {
  import opened Wrappers
  import opened Browser
  import opened Http
  import opened Models
  import opened UserService

  /** `canAddAdmins()`: only an admin may create staff accounts, and
      whoever may do so may add users too. */
  function CanAddAdmins(role: string): (b: bool)
    ensures role == "admin" ==> b
    ensures b ==> CanAddUsers(role)
    ensures b ==> role != "staff_admin"
  {
    role == "admin"
  }

  /** `canAddUsers()`: admins and staff admins may create users; complaint
      staff, plain users and unknown roles may not. */
  function CanAddUsers(role: string): (b: bool)
    ensures role == "admin" ==> b
    ensures role == "staff_admin" ==> b
    ensures b ==> role in RoleDisplayNames && role != "complaint_staff" && role != "user"
  {
    role == "admin" || role == "staff_admin"
  }

  const RoleDisplayNames: map<string, string> := map[
    "admin" := "Admin",
    "staff_admin" := "Staff Admin",
    "complaint_staff" := "Complaint Staff",
    "user" := "User"]

  const RoleBadgeClasses: map<string, string> := map[
    "admin" := "badge-admin",
    "staff_admin" := "badge-staff-admin",
    "complaint_staff" := "badge-staff",
    "user" := "badge-user"]

  /** `getRoleDisplayName(role)`: the table's name, or the role as it is. */
  function RoleDisplayName(role: string): (name: string)
    ensures role in RoleDisplayNames ==> name == RoleDisplayNames[role]
    ensures role !in RoleDisplayNames ==> name == role
  {
    FirstTruthy([if role in RoleDisplayNames then Some(RoleDisplayNames[role]) else None], role)
  }

  /** `getRoleBadgeClass(role)`: the table's class, or `badge-default`. */
  function RoleBadgeClass(role: string): (cls: string)
    ensures role in RoleBadgeClasses ==> cls == RoleBadgeClasses[role]
    ensures role !in RoleBadgeClasses ==> cls == "badge-default"
  {
    FirstTruthy([if role in RoleBadgeClasses then Some(RoleBadgeClasses[role]) else None], "badge-default")
  }

  /** The four known roles get four different badges, none of them the
      default one, and a display name that differs from the role code. */
  lemma KnownRolesDistinct(r: string, s: string)
    requires r in RoleBadgeClasses && s in RoleBadgeClasses && r != s
    ensures RoleBadgeClass(r) != RoleBadgeClass(s) && RoleBadgeClass(r) != "badge-default"
    ensures RoleDisplayName(r) != RoleDisplayName(s) && RoleDisplayName(r) != r
  {
  }

  /** One entry of the target-role select. */
  datatype RoleOption = RoleOption(value: TargetRole, caption: string)

  /** `getAvailableTargetRoles()`: what the staff form offers to a user of
      the given role. */
  function AvailableTargetRoles(role: string): (opts: seq<RoleOption>)
    ensures |opts| > 0 <==> CanAddUsers(role)
    ensures (exists i :: 0 <= i < |opts| && opts[i].value == StaffAdmin) <==> CanAddAdmins(role)
    ensures forall i :: 0 <= i < |opts| ==> opts[i].caption == RoleDisplayName(opts[i].value.Code())
    ensures forall i, j :: 0 <= i < j < |opts| ==> opts[i].value != opts[j].value
    ensures role == "admin" ==> |opts| == 2 && opts[0].value == StaffAdmin && opts[1].value == ComplaintStaff
    ensures role == "staff_admin" ==> |opts| == 1 && opts[0].value == ComplaintStaff
  {
    if role == "admin" then
      var both := [RoleOption(StaffAdmin, "Staff Admin"), RoleOption(ComplaintStaff, "Complaint Staff")];
      assert both[0].value == StaffAdmin;
      both
    else if role == "staff_admin" then
      [RoleOption(ComplaintStaff, "Complaint Staff")]
    else
      []
  }

  /** `shouldShowAgencyId()`: the agency field belongs to complaint staff,
      the role whose code is `complaint_staff`, and never to a staff admin. */
  function ShouldShowAgencyId(dto: CreateStaffDto): (b: bool)
    ensures b <==> dto.targetRole.Some? && dto.targetRole.value.Code() == "complaint_staff"
    ensures b ==> dto.targetRole != Some(StaffAdmin)
  {
    dto.targetRole == Some(ComplaintStaff)
  }

  const UserFieldsRequired := "Email and phone are required"
  const StaffFieldsRequired := "Email, phone, and target role are required"
  const StaffAdminLimit := "Staff admins can only create complaint staff"
  const AgencyRequired := "Agency ID is required for complaint staff"

  /** The check at the head of `addUser()`. */
  function UserFormError(dto: CreateUserDto): (e: Option<string>)
    ensures e.None? <==> dto.email != "" && dto.phone != ""
    ensures e.Some? ==> e.value == UserFieldsRequired
  {
    if dto.email == "" || dto.phone == "" then Some(UserFieldsRequired) else None
  }

  /** The checks at the head of `addAdmin()`, in their order; the first
      that fails gives the message. */
  function StaffFormError(role: string, dto: CreateStaffDto): (e: Option<string>)
    ensures e.None? <==> && dto.email != "" && dto.phone != "" && dto.targetRole.Some?
                         && !(role == "staff_admin" && dto.targetRole == Some(StaffAdmin))
                         && !(dto.targetRole == Some(ComplaintStaff) && dto.agencyId == "")
    ensures e.Some? ==> e.value in {StaffFieldsRequired, StaffAdminLimit, AgencyRequired}
    ensures (dto.email == "" || dto.phone == "" || dto.targetRole.None?) ==> e == Some(StaffFieldsRequired)
    ensures dto.email != "" && dto.phone != "" && dto.targetRole == Some(ComplaintStaff) && dto.agencyId == ""
            ==> e == Some(AgencyRequired)
  {
    if dto.email == "" || dto.phone == "" || dto.targetRole.None? then Some(StaffFieldsRequired)
    else if role == "staff_admin" && dto.targetRole == Some(StaffAdmin) then Some(StaffAdminLimit)
    else if dto.targetRole == Some(ComplaintStaff) && dto.agencyId == "" then Some(AgencyRequired)
    else None
  }

  /** The role check refuses exactly a staff admin creating a staff admin
      on an otherwise complete form: an admin may create either kind, and
      the other roles are not stopped by this check. */
  lemma OnlyStaffAdminIsLimited(role: string, dto: CreateStaffDto)
    requires dto.email != "" && dto.phone != "" && dto.targetRole.Some?
    ensures StaffFormError(role, dto) == Some(StaffAdminLimit)
            <==> role == "staff_admin" && dto.targetRole == Some(StaffAdmin)
  {
  }

  /** A role the select offers, on a complete form (an agency given where
      the agency field shows), passes every check. */
  lemma OfferedRolesPass(role: string, dto: CreateStaffDto, i: nat)
    requires i < |AvailableTargetRoles(role)|
    requires dto.targetRole == Some(AvailableTargetRoles(role)[i].value)
    requires dto.email != "" && dto.phone != ""
    requires ShouldShowAgencyId(dto) ==> dto.agencyId != ""
    ensures StaffFormError(role, dto) == None
  {
    var opts := AvailableTargetRoles(role);
    if opts[i].value == StaffAdmin {
      assert CanAddAdmins(role);
    }
  }

  /** While the agency field is hidden, a missing agency never blocks the
      form. */
  lemma HiddenAgencyNeverBlocks(role: string, dto: CreateStaffDto)
    requires !ShouldShowAgencyId(dto)
    ensures StaffFormError(role, dto) != Some(AgencyRequired)
  {
  }

  const EmptyUserForm := CreateUserDto("", "", "", "", "")
  const EmptyAdminForm := CreateStaffDto("", "", "", "", Some(StaffAdmin), "")

  /** The query `loadUsers()` passes to `getAll`: each filter only when set,
      the active filter as the boolean `filter === 'true'`. */
  function FilterQuery(roleFilter: string, activeFilter: string, searchTerm: string): (q: QueryUserDto)
    ensures q.role.Some? <==> roleFilter != ""
    ensures q.search.Some? <==> searchTerm != ""
    ensures q.role.Some? ==> q.role.value == roleFilter
    ensures q.search.Some? ==> q.search.value == searchTerm
    ensures q.isActive.Some? <==> activeFilter != ""
    ensures q.isActive == Some(true) <==> activeFilter == "true"
    ensures q.isVerified.None? && q.page.None? && q.limit.None? && q.orderBy.None?
  {
    QueryUserDto(
      role := if roleFilter != "" then Some(roleFilter) else None,
      isVerified := None,
      isActive := if activeFilter != "" then Some(activeFilter == "true") else None,
      page := None, limit := None,
      search := if searchTerm != "" then Some(searchTerm) else None,
      orderBy := None)
  }

  /** The parameters the user list asks for: the role and the search term
      when non-empty, `isActive` as "true" or "false" whenever the active
      filter is set (any value but "true" reads as "false"), and nothing
      else. */
  lemma FilterParams(roleFilter: string, activeFilter: string, searchTerm: string, key: string)
    ensures var p := GetAllParams(Some(FilterQuery(roleFilter, activeFilter, searchTerm)));
            && Get(p, "role") == (if roleFilter != "" then Some(roleFilter) else None)
            && Get(p, "isActive") == (if activeFilter == "" then None
                                      else if activeFilter == "true" then Some("true") else Some("false"))
            && Get(p, "search") == (if searchTerm != "" then Some(searchTerm) else None)
            && (key !in {"role", "isActive", "search"} ==> Get(p, key) == None)
  {
    var q := Some(FilterQuery(roleFilter, activeFilter, searchTerm));
    GetAllParamsLookup(q, "role");
    GetAllParamsLookup(q, "isActive");
    GetAllParamsLookup(q, "search");
    GetAllParamsLookup(q, key);
  }

  /** With every filter cleared the list request carries no parameters. */
  lemma ClearedFiltersSendNothing()
    ensures GetAllParams(Some(FilterQuery("", "", ""))) == []
  {
    var p := GetAllParams(Some(FilterQuery("", "", "")));
    if p != [] {
      assert p[0].0 in Keys(p);
      FilterParams("", "", "", p[0].0);
      assert false;
    }
  }

  datatype UserRequest =
    | GetMe
    | ListUsers(query: QueryUserDto)
    | CreateUser(dto: CreateUserDto, picture: Option<File>)
    | CreateStaff(staff: CreateStaffDto)
    | RemoveUser(id: string)

  class UsersComponent {
    var users: seq<User>
    var loading: bool
    var error: string
    var showAddUserForm: bool
    var showAddAdminForm: bool
    var newUser: CreateUserDto
    var newAdmin: CreateStaffDto
    var selectedProfilePicture: Option<File>
    var profilePicturePreview: Option<string>
    var isSubmitting: bool
    var currentUser: Option<User>
    var currentUserRole: string
    var searchTerm: string
    var roleFilter: string
    var activeFilter: string
    var issued: seq<UserRequest>
    const isBrowser: bool

    constructor (isBrowser: bool)
      ensures this.isBrowser == isBrowser
      ensures users == [] && loading && error == "" && !showAddUserForm && !showAddAdminForm
      ensures newUser == EmptyUserForm && newAdmin == EmptyAdminForm
      ensures selectedProfilePicture == None && profilePicturePreview == None && !isSubmitting
      ensures currentUser == None && currentUserRole == ""
      ensures searchTerm == "" && roleFilter == "" && activeFilter == "" && issued == []
    {
      this.isBrowser := isBrowser;
      users := [];
      loading := true;
      error := "";
      showAddUserForm := false;
      showAddAdminForm := false;
      newUser := EmptyUserForm;
      newAdmin := EmptyAdminForm;
      selectedProfilePicture := None;
      profilePicturePreview := None;
      isSubmitting := false;
      currentUser := None;
      currentUserRole := "";
      searchTerm := "";
      roleFilter := "";
      activeFilter := "";
      issued := [];
    }

    /** `loadCurrentUser()` up to the request. */
    method LoadCurrentUser()
      modifies this
      ensures issued == old(issued) + [GetMe]
      ensures users == old(users) && loading == old(loading) && error == old(error)
      ensures showAddUserForm == old(showAddUserForm) && showAddAdminForm == old(showAddAdminForm)
      ensures newUser == old(newUser) && newAdmin == old(newAdmin) && isSubmitting == old(isSubmitting)
      ensures selectedProfilePicture == old(selectedProfilePicture)
      ensures profilePicturePreview == old(profilePicturePreview)
      ensures currentUser == old(currentUser) && currentUserRole == old(currentUserRole)
      ensures searchTerm == old(searchTerm) && roleFilter == old(roleFilter) && activeFilter == old(activeFilter)
    {
      issued := issued + [GetMe];
    }

    /** The callbacks of `getMe()`. On success the user and its role are
      kept. On an error, in the browser, the role of the stored `user` entry
      is used; `storedRole` is that entry's parsed `role` property, `None`
      when no entry is stored or it does not parse. */
    method OnCurrentUserLoaded(outcome: Result<User, HttpError>, storedRole: Option<Option<string>>)
      modifies this
      ensures outcome.Success? ==> currentUser == Some(outcome.value) && currentUserRole == outcome.value.role
      ensures outcome.Failure? ==> currentUser == old(currentUser)
      ensures outcome.Failure? && isBrowser && storedRole.Some? ==>
                currentUserRole == FirstTruthy([storedRole.value], "")
      ensures outcome.Failure? && !(isBrowser && storedRole.Some?) ==> currentUserRole == old(currentUserRole)
      ensures issued == old(issued) && users == old(users) && loading == old(loading) && error == old(error)
      ensures showAddUserForm == old(showAddUserForm) && showAddAdminForm == old(showAddAdminForm)
      ensures newUser == old(newUser) && newAdmin == old(newAdmin) && isSubmitting == old(isSubmitting)
      ensures selectedProfilePicture == old(selectedProfilePicture)
      ensures profilePicturePreview == old(profilePicturePreview)
      ensures searchTerm == old(searchTerm) && roleFilter == old(roleFilter) && activeFilter == old(activeFilter)
    {
      match outcome
      case Success(user) =>
        currentUser := Some(user);
        currentUserRole := user.role;
      case Failure(_) =>
        if isBrowser && storedRole.Some? {
          currentUserRole := FirstTruthy([storedRole.value], "");
        }
    }

    /** `loadUsers()` up to the request, which carries the set filters. */
    method LoadUsers()
      modifies this
      ensures loading && error == ""
      ensures issued == old(issued) + [ListUsers(FilterQuery(roleFilter, activeFilter, searchTerm))]
      ensures users == old(users)
      ensures showAddUserForm == old(showAddUserForm) && showAddAdminForm == old(showAddAdminForm)
      ensures newUser == old(newUser) && newAdmin == old(newAdmin) && isSubmitting == old(isSubmitting)
      ensures selectedProfilePicture == old(selectedProfilePicture)
      ensures profilePicturePreview == old(profilePicturePreview)
      ensures currentUser == old(currentUser) && currentUserRole == old(currentUserRole)
      ensures searchTerm == old(searchTerm) && roleFilter == old(roleFilter) && activeFilter == old(activeFilter)
    {
      loading := true;
      error := "";
      var query := QueryUserDto(None, None, None, None, None, None, None);
      if roleFilter != "" {
        query := query.(role := Some(roleFilter));
      }
      if activeFilter != "" {
        query := query.(isActive := Some(activeFilter == "true"));
      }
      if searchTerm != "" {
        query := query.(search := Some(searchTerm));
      }
      issued := issued + [ListUsers(query)];
    }

    /** The callbacks of `getAll`: the response's items replace the list
      (no items gives the empty list); an error keeps it. */
    method OnUsersLoaded(outcome: Result<Option<seq<User>>, HttpError>)
      modifies this
      ensures !loading && issued == old(issued)
      ensures outcome.Success? ==> users == outcome.value.GetOr([]) && error == old(error)
      ensures outcome.Failure? ==>
                && users == old(users)
                && error == FirstTruthy([outcome.error.BodyMessage()], "Failed to load users")
      ensures showAddUserForm == old(showAddUserForm) && showAddAdminForm == old(showAddAdminForm)
      ensures newUser == old(newUser) && newAdmin == old(newAdmin) && isSubmitting == old(isSubmitting)
      ensures selectedProfilePicture == old(selectedProfilePicture)
      ensures profilePicturePreview == old(profilePicturePreview)
      ensures currentUser == old(currentUser) && currentUserRole == old(currentUserRole)
      ensures searchTerm == old(searchTerm) && roleFilter == old(roleFilter) && activeFilter == old(activeFilter)
    {
      match outcome
      case Success(items) =>
        users := items.GetOr([]);
        loading := false;
      case Failure(err) =>
        error := FirstTruthy([err.BodyMessage()], "Failed to load users");
        loading := false;
    }

    /** `resetUserForm()`. */
    method ResetUserForm()
      modifies this
      ensures newUser == EmptyUserForm && selectedProfilePicture == None && profilePicturePreview == None
      ensures error == ""
      ensures issued == old(issued) && users == old(users) && loading == old(loading)
      ensures showAddUserForm == old(showAddUserForm) && showAddAdminForm == old(showAddAdminForm)
      ensures newAdmin == old(newAdmin) && isSubmitting == old(isSubmitting)
      ensures currentUser == old(currentUser) && currentUserRole == old(currentUserRole)
      ensures searchTerm == old(searchTerm) && roleFilter == old(roleFilter) && activeFilter == old(activeFilter)
    {
      newUser := EmptyUserForm;
      selectedProfilePicture := None;
      profilePicturePreview := None;
      error := "";
    }

    /** `resetAdminForm()`: the role select goes back to staff admin. */
    method ResetAdminForm()
      modifies this
      ensures newAdmin == EmptyAdminForm && error == ""
      ensures issued == old(issued) && users == old(users) && loading == old(loading)
      ensures showAddUserForm == old(showAddUserForm) && showAddAdminForm == old(showAddAdminForm)
      ensures newUser == old(newUser) && isSubmitting == old(isSubmitting)
      ensures selectedProfilePicture == old(selectedProfilePicture)
      ensures profilePicturePreview == old(profilePicturePreview)
      ensures currentUser == old(currentUser) && currentUserRole == old(currentUserRole)
      ensures searchTerm == old(searchTerm) && roleFilter == old(roleFilter) && activeFilter == old(activeFilter)
    {
      newAdmin := EmptyAdminForm;
      error := "";
    }

    /** `toggleAddUserForm()`: flips the user form and always closes the
      staff form; closing the user form resets it. */
    method ToggleAddUserForm()
      modifies this
      ensures showAddUserForm == !old(showAddUserForm) && !showAddAdminForm
      ensures !(showAddUserForm && showAddAdminForm)
      ensures !showAddUserForm ==>
                && newUser == EmptyUserForm && selectedProfilePicture == None
                && profilePicturePreview == None && error == ""
      ensures showAddUserForm ==>
                && newUser == old(newUser) && selectedProfilePicture == old(selectedProfilePicture)
                && profilePicturePreview == old(profilePicturePreview) && error == old(error)
      ensures newAdmin == old(newAdmin)
      ensures issued == old(issued) && users == old(users) && loading == old(loading)
      ensures isSubmitting == old(isSubmitting)
      ensures currentUser == old(currentUser) && currentUserRole == old(currentUserRole)
      ensures searchTerm == old(searchTerm) && roleFilter == old(roleFilter) && activeFilter == old(activeFilter)
    {
      showAddUserForm := !showAddUserForm;
      if !showAddUserForm {
        ResetUserForm();
      }
      showAddAdminForm := false;
    }

    /** `toggleAddAdminForm()`: flips the staff form and always closes the
      user form; closing the staff form resets it. */
    method ToggleAddAdminForm()
      modifies this
      ensures showAddAdminForm == !old(showAddAdminForm) && !showAddUserForm
      ensures !(showAddUserForm && showAddAdminForm)
      ensures !showAddAdminForm ==> newAdmin == EmptyAdminForm && error == ""
      ensures showAddAdminForm ==> newAdmin == old(newAdmin) && error == old(error)
      ensures newUser == old(newUser) && selectedProfilePicture == old(selectedProfilePicture)
      ensures profilePicturePreview == old(profilePicturePreview)
      ensures issued == old(issued) && users == old(users) && loading == old(loading)
      ensures isSubmitting == old(isSubmitting)
      ensures currentUser == old(currentUser) && currentUserRole == old(currentUserRole)
      ensures searchTerm == old(searchTerm) && roleFilter == old(roleFilter) && activeFilter == old(activeFilter)
    {
      showAddAdminForm := !showAddAdminForm;
      if !showAddAdminForm {
        ResetAdminForm();
      }
      showAddUserForm := false;
    }

    /** `onProfilePictureSelected(event)`, without the preview: the first
      chosen file, if any, becomes the picture to upload. */
    method OnProfilePictureSelected(firstFile: Option<File>)
      modifies this
      ensures selectedProfilePicture == (if firstFile.Some? then firstFile else old(selectedProfilePicture))
      ensures profilePicturePreview == old(profilePicturePreview)
      ensures issued == old(issued) && users == old(users) && loading == old(loading) && error == old(error)
      ensures showAddUserForm == old(showAddUserForm) && showAddAdminForm == old(showAddAdminForm)
      ensures newUser == old(newUser) && newAdmin == old(newAdmin) && isSubmitting == old(isSubmitting)
      ensures currentUser == old(currentUser) && currentUserRole == old(currentUserRole)
      ensures searchTerm == old(searchTerm) && roleFilter == old(roleFilter) && activeFilter == old(activeFilter)
    {
      if firstFile.Some? {
        selectedProfilePicture := firstFile;
      }
    }

    /** `removeProfilePicture()`, without clearing the file input. */
    method RemoveProfilePicture()
      modifies this
      ensures selectedProfilePicture == None && profilePicturePreview == None
      ensures issued == old(issued) && users == old(users) && loading == old(loading) && error == old(error)
      ensures showAddUserForm == old(showAddUserForm) && showAddAdminForm == old(showAddAdminForm)
      ensures newUser == old(newUser) && newAdmin == old(newAdmin) && isSubmitting == old(isSubmitting)
      ensures currentUser == old(currentUser) && currentUserRole == old(currentUserRole)
      ensures searchTerm == old(searchTerm) && roleFilter == old(roleFilter) && activeFilter == old(activeFilter)
    {
      selectedProfilePicture := None;
      profilePicturePreview := None;
    }

    /** `addUser()` up to the request: without email or phone the form is
      refused, nothing is submitted and no request goes out. */
    method AddUser()
      modifies this
      ensures UserFormError(old(newUser)).Some? ==>
                && error == UserFieldsRequired && isSubmitting == old(isSubmitting) && issued == old(issued)
      ensures UserFormError(old(newUser)).None? ==>
                && isSubmitting && error == ""
                && issued == old(issued) + [CreateUser(old(newUser), old(selectedProfilePicture))]
      ensures users == old(users) && loading == old(loading)
      ensures showAddUserForm == old(showAddUserForm) && showAddAdminForm == old(showAddAdminForm)
      ensures newUser == old(newUser) && newAdmin == old(newAdmin)
      ensures selectedProfilePicture == old(selectedProfilePicture)
      ensures profilePicturePreview == old(profilePicturePreview)
      ensures currentUser == old(currentUser) && currentUserRole == old(currentUserRole)
      ensures searchTerm == old(searchTerm) && roleFilter == old(roleFilter) && activeFilter == old(activeFilter)
    {
      if newUser.email == "" || newUser.phone == "" {
        error := UserFieldsRequired;
        return;
      }
      isSubmitting := true;
      error := "";
      issued := issued + [CreateUser(newUser, selectedProfilePicture)];
    }

    /** The callbacks of `createUser`: success reloads the list, resets and
      closes the form; an error shows the body's `message`, else its
      `error`, else a fixed text. */
    method OnUserCreated(outcome: Result<User, HttpError>)
      modifies this
      ensures !isSubmitting
      ensures outcome.Success? ==>
                && issued == old(issued) + [ListUsers(FilterQuery(roleFilter, activeFilter, searchTerm))]
                && loading && error == "" && !showAddUserForm
                && newUser == EmptyUserForm && selectedProfilePicture == None && profilePicturePreview == None
      ensures outcome.Failure? ==>
                && issued == old(issued) && loading == old(loading) && showAddUserForm == old(showAddUserForm)
                && newUser == old(newUser) && selectedProfilePicture == old(selectedProfilePicture)
                && profilePicturePreview == old(profilePicturePreview)
                && error == FirstTruthy([outcome.error.BodyMessage(), outcome.error.BodyError()],
                                        "Failed to create user")
      ensures users == old(users) && showAddAdminForm == old(showAddAdminForm) && newAdmin == old(newAdmin)
      ensures currentUser == old(currentUser) && currentUserRole == old(currentUserRole)
      ensures searchTerm == old(searchTerm) && roleFilter == old(roleFilter) && activeFilter == old(activeFilter)
    {
      match outcome
      case Success(_) =>
        LoadUsers();
        ResetUserForm();
        showAddUserForm := false;
        isSubmitting := false;
      case Failure(err) =>
        error := FirstTruthy([err.BodyMessage(), err.BodyError()], "Failed to create user");
        isSubmitting := false;
    }

    /** `addAdmin()` up to the request: the three checks run in order and
      the first failure is reported with no request; only a form that
      passes all three is submitted. */
    method AddAdmin()
      modifies this
      ensures StaffFormError(currentUserRole, old(newAdmin)).Some? ==>
                && error == StaffFormError(currentUserRole, old(newAdmin)).value
                && isSubmitting == old(isSubmitting) && issued == old(issued)
      ensures StaffFormError(currentUserRole, old(newAdmin)).None? ==>
                && isSubmitting && error == "" && issued == old(issued) + [CreateStaff(old(newAdmin))]
      ensures users == old(users) && loading == old(loading)
      ensures showAddUserForm == old(showAddUserForm) && showAddAdminForm == old(showAddAdminForm)
      ensures newUser == old(newUser) && newAdmin == old(newAdmin)
      ensures selectedProfilePicture == old(selectedProfilePicture)
      ensures profilePicturePreview == old(profilePicturePreview)
      ensures currentUser == old(currentUser) && currentUserRole == old(currentUserRole)
      ensures searchTerm == old(searchTerm) && roleFilter == old(roleFilter) && activeFilter == old(activeFilter)
    {
      if newAdmin.email == "" || newAdmin.phone == "" || newAdmin.targetRole.None? {
        error := StaffFieldsRequired;
        return;
      }
      if currentUserRole == "staff_admin" && newAdmin.targetRole == Some(StaffAdmin) {
        error := StaffAdminLimit;
        return;
      }
      if newAdmin.targetRole == Some(ComplaintStaff) && newAdmin.agencyId == "" {
        error := AgencyRequired;
        return;
      }
      isSubmitting := true;
      error := "";
      issued := issued + [CreateStaff(newAdmin)];
    }

    /** The callbacks of `createStaff`, as for `createUser` on the staff form. */
    method OnStaffCreated(outcome: Result<User, HttpError>)
      modifies this
      ensures !isSubmitting
      ensures outcome.Success? ==>
                && issued == old(issued) + [ListUsers(FilterQuery(roleFilter, activeFilter, searchTerm))]
                && loading && error == "" && !showAddAdminForm && newAdmin == EmptyAdminForm
      ensures outcome.Failure? ==>
                && issued == old(issued) && loading == old(loading) && showAddAdminForm == old(showAddAdminForm)
                && newAdmin == old(newAdmin)
                && error == FirstTruthy([outcome.error.BodyMessage(), outcome.error.BodyError()],
                                        "Failed to create staff")
      ensures users == old(users) && showAddUserForm == old(showAddUserForm) && newUser == old(newUser)
      ensures selectedProfilePicture == old(selectedProfilePicture)
      ensures profilePicturePreview == old(profilePicturePreview)
      ensures currentUser == old(currentUser) && currentUserRole == old(currentUserRole)
      ensures searchTerm == old(searchTerm) && roleFilter == old(roleFilter) && activeFilter == old(activeFilter)
    {
      match outcome
      case Success(_) =>
        LoadUsers();
        ResetAdminForm();
        showAddAdminForm := false;
        isSubmitting := false;
      case Failure(err) =>
        error := FirstTruthy([err.BodyMessage(), err.BodyError()], "Failed to create staff");
        isSubmitting := false;
    }

    /** `deleteUser(user)` up to the request; `confirmed` is the answer to
      the confirmation dialog. A declined dialog changes nothing, and an
      admin account is never deleted. */
    method DeleteUser(user: User, confirmed: bool)
      modifies this
      ensures !confirmed ==> error == old(error) && issued == old(issued)
      ensures confirmed && user.role == "admin" ==> error == "Cannot delete admin user" && issued == old(issued)
      ensures confirmed && user.role != "admin" ==> error == old(error) && issued == old(issued) + [RemoveUser(user.id)]
      ensures users == old(users) && loading == old(loading) && isSubmitting == old(isSubmitting)
      ensures showAddUserForm == old(showAddUserForm) && showAddAdminForm == old(showAddAdminForm)
      ensures newUser == old(newUser) && newAdmin == old(newAdmin)
      ensures selectedProfilePicture == old(selectedProfilePicture)
      ensures profilePicturePreview == old(profilePicturePreview)
      ensures currentUser == old(currentUser) && currentUserRole == old(currentUserRole)
      ensures searchTerm == old(searchTerm) && roleFilter == old(roleFilter) && activeFilter == old(activeFilter)
    {
      if !confirmed {
        return;
      }
      if user.role == "admin" {
        error := "Cannot delete admin user";
        return;
      }
      issued := issued + [RemoveUser(user.id)];
    }

    /** The callbacks of `deleteUser`: success reloads the list. */
    method OnUserDeleted(outcome: Result<(), HttpError>)
      modifies this
      ensures outcome.Success? ==>
                && issued == old(issued) + [ListUsers(FilterQuery(roleFilter, activeFilter, searchTerm))]
                && loading && error == ""
      ensures outcome.Failure? ==>
                && issued == old(issued) && loading == old(loading)
                && error == FirstTruthy([outcome.error.BodyMessage()], "Failed to delete user")
      ensures users == old(users) && isSubmitting == old(isSubmitting)
      ensures showAddUserForm == old(showAddUserForm) && showAddAdminForm == old(showAddAdminForm)
      ensures newUser == old(newUser) && newAdmin == old(newAdmin)
      ensures selectedProfilePicture == old(selectedProfilePicture)
      ensures profilePicturePreview == old(profilePicturePreview)
      ensures currentUser == old(currentUser) && currentUserRole == old(currentUserRole)
      ensures searchTerm == old(searchTerm) && roleFilter == old(roleFilter) && activeFilter == old(activeFilter)
    {
      match outcome
      case Success(_) =>
        LoadUsers();
      case Failure(err) =>
        error := FirstTruthy([err.BodyMessage()], "Failed to delete user");
    }

    /** `clearFilters()`: empties the three filters and reloads, so the
      request carries no parameters (`ClearedFiltersSendNothing`). */
    method ClearFilters()
      modifies this
      ensures searchTerm == "" && roleFilter == "" && activeFilter == ""
      ensures issued == old(issued) + [ListUsers(FilterQuery("", "", ""))]
      ensures loading && error == ""
      ensures users == old(users) && isSubmitting == old(isSubmitting)
      ensures showAddUserForm == old(showAddUserForm) && showAddAdminForm == old(showAddAdminForm)
      ensures newUser == old(newUser) && newAdmin == old(newAdmin)
      ensures selectedProfilePicture == old(selectedProfilePicture)
      ensures profilePicturePreview == old(profilePicturePreview)
      ensures currentUser == old(currentUser) && currentUserRole == old(currentUserRole)
    {
      searchTerm := "";
      roleFilter := "";
      activeFilter := "";
      LoadUsers();
    }
  }
}
