/**
 * The user management page: role and status badge colours, the add and edit
 * handlers with their guards, the form reset, and the page-size and filter
 * handlers that send the table back to page 1.
 *
 * As on the follower dashboard, the decisions are functions and the component
 * is a class whose methods apply the state setters; a mutation call is
 * returned as a request value.
 */
module UserPage {
  import opened Common
  import opened Router

  const Purple := "bg-purple-100 text-purple-800 hover:bg-purple-100"
  const Blue := "bg-blue-100 text-blue-800 hover:bg-blue-100"
  const Green := "bg-green-100 text-green-800 hover:bg-green-100"
  const Gray := "bg-gray-100 text-gray-800 hover:bg-gray-100"

  /** The role every user created from this page receives. */
  const NewUserRoleId := 2

  /** The role names the seed script creates. */
  const SeededRoles := [Role(1, "Administrator"), Role(2, "Member")]

  datatype UserForm = UserForm(fullname: string, username: string, password: string)

  const EmptyForm := UserForm("", "", "")

  datatype CreateUserInput = CreateUserInput(fullname: string, username: string, password: string, roleId: int)

  datatype UpdateUserInput = UpdateUserInput(id: int, fullname: string, username: string, password: Option<string>)

  // ---------------------------------------------------------------------------
  // Badge colours

  /** `getRoleColor`: the cases are lower-case names. */
  function RoleColor(role: string): (c: string)
    ensures role == "administrator" <==> c == Purple
    ensures role == "member" <==> c == Blue
    ensures c == Gray <==> role != "administrator" && role != "member"
  {
    match role
    case "administrator" => Purple
    case "member" => Blue
    case _ => Gray
  }

  function StatusColor(status: string): (c: string)
    ensures status == "active" <==> c == Green
    ensures c == Gray <==> status != "active"
  {
    match status
    case "active" => Green
    case "inactive" => Gray
    case _ => Gray
  }

  /** The table passes the stored role name, and the seeded names are
      capitalised, so every role badge of a seeded role is gray. */
  lemma SeededRoleBadgesAreGray(u: User)
    requires RoleName(SeededRoles, u.roleId).Some?
    ensures RoleColor(RoleName(SeededRoles, u.roleId).value) == Gray
  {
  }

  // ---------------------------------------------------------------------------
  // Handler decisions

  /** `handleAddUser`: a request only when all three fields are filled, and it
      always asks for role 2. */
  function AddUserRequest(form: UserForm): (r: Option<CreateUserInput>)
    ensures r.Some? <==> form.fullname != "" && form.username != "" && form.password != ""
    ensures r.Some? ==> r.value.roleId == NewUserRoleId
    ensures r.Some? ==> r.value.fullname == form.fullname && r.value.username == form.username
                        && r.value.password == form.password
  {
    if form.fullname == "" || form.username == "" || form.password == "" then None
    else Some(CreateUserInput(form.fullname, form.username, form.password, NewUserRoleId))
  }

  /** `handleEditUser`: needs the edited user and a fullname and username; the
      password may be empty. The request carries that user's id. */
  function EditUserRequest(editing: Option<User>, form: UserForm): (r: Option<UpdateUserInput>)
    ensures r.Some? <==> editing.Some? && form.fullname != "" && form.username != ""
    ensures r.Some? ==> r.value.id == editing.value.id && r.value.fullname == form.fullname
                        && r.value.username == form.username && r.value.password == Some(form.password)
  {
    if editing.None? || form.fullname == "" || form.username == "" then None
    else Some(UpdateUserInput(editing.value.id, form.fullname, form.username, Some(form.password)))
  }

  // ---------------------------------------------------------------------------
  // Opening the edit dialog

  /** The form `openEditDialog` fills in as written: `setFormData(user)` copies
      the whole row, and the row `getUsers` returns holds the password hash. */
  function EditFormAsWritten(u: User): (form: UserForm)
    ensures form.fullname == u.fullname && form.username == u.username && form.password == u.password
  {
    UserForm(u.fullname, u.username, u.password)
  }

  /** Saving an edit opened as written, without touching the password field,
      sends the stored hash back as a new password, so the server replaces
      the hash with a hash of the old hash string. */
  lemma EditAsWrittenReplacesHash(u: User, hashed: string)
    requires u.fullname != "" && u.username != "" && u.password != ""
    ensures var req := EditUserRequest(Some(u), EditFormAsWritten(u));
            req == Some(UpdateUserInput(u.id, u.fullname, u.username, Some(u.password)))
            && ApplyUserUpdate(u, req.value.fullname, req.value.username, req.value.password, hashed).password == hashed
  {
  }

  /** The form the edit dialog should start from: the names of the row and an
      empty password field. */
  function EditForm(u: User): (form: UserForm)
    ensures form.fullname == u.fullname && form.username == u.username && form.password == ""
  {
    UserForm(u.fullname, u.username, "")
  }

  /** Saving an edit with the password field left empty keeps the stored user
      exactly as it was, whatever hash the server could have made; a typed
      password still replaces the hash. */
  lemma EditKeepsPasswordUnlessTyped(u: User, hashed: string, typed: string)
    requires u.fullname != "" && u.username != ""
    ensures var req := EditUserRequest(Some(u), EditForm(u));
            req.Some? && ApplyUserUpdate(u, req.value.fullname, req.value.username, req.value.password, hashed) == u
    ensures typed != "" ==>
              var req := EditUserRequest(Some(u), EditForm(u).(password := typed));
              req.Some? && ApplyUserUpdate(u, req.value.fullname, req.value.username, req.value.password, hashed) == u.(password := hashed)
  {
  }

  // ---------------------------------------------------------------------------
  // The page component

  class Page {
    var editingUser: Option<User>
    var isEditDialogOpen: bool
    var isAddDialogOpen: bool
    var formData: UserForm
    var searchTerm: string
    var roleFilter: string
    var currentPage: int
    var itemsPerPage: int
    var totalUsers: nat   // `getTotalUsers({})`, 0 until it arrives

    constructor ()
      ensures editingUser == None && !isEditDialogOpen && !isAddDialogOpen && formData == EmptyForm
      ensures searchTerm == "" && roleFilter == "all" && currentPage == 1 && itemsPerPage == 10
      ensures totalUsers == 0
    {
      editingUser := None;
      isEditDialogOpen := false;
      isAddDialogOpen := false;
      formData := EmptyForm;
      searchTerm := "";
      roleFilter := "all";
      currentPage := 1;
      itemsPerPage := 10;
      totalUsers := 0;
    }

    /** `totalPages`: enough pages of `itemsPerPage` rows for `totalUsers`. */
    function PageCount(): (pages: nat)
      reads this
      requires itemsPerPage > 0
      ensures pages * itemsPerPage >= totalUsers
      ensures pages > 0 ==> (pages - 1) * itemsPerPage < totalUsers
    {
      TotalPages(totalUsers, itemsPerPage)
    }

    /** The count query delivers its value. */
    method LoadTotal(total: nat)
      modifies this`totalUsers
      ensures totalUsers == total
    {
      totalUsers := total;
    }

    /** `resetForm`. */
    method ResetForm()
      modifies this`formData, this`editingUser
      ensures formData == EmptyForm && editingUser == None
    {
      formData := EmptyForm;
      editingUser := None;
    }

    /** `handleAddUser`: changes no state. */
    method HandleAddUser() returns (r: Option<CreateUserInput>)
      ensures r == AddUserRequest(formData)
    {
      r := AddUserRequest(formData);
    }

    /** `handleEditUser`: changes no state. */
    method HandleEditUser() returns (r: Option<UpdateUserInput>)
      ensures r == EditUserRequest(editingUser, formData)
    {
      r := EditUserRequest(editingUser, formData);
    }

    /** `openEditDialog`: the form takes the whole row, the stored hash
        included (see `EditAsWrittenReplacesHash`; `EditForm` is the form it
        should start from). */
    method OpenEditDialog(user: User)
      modifies this`editingUser, this`formData, this`isEditDialogOpen
      ensures editingUser == Some(user) && formData == EditFormAsWritten(user) && isEditDialogOpen
    {
      editingUser := Some(user);
      formData := EditFormAsWritten(user);
      isEditDialogOpen := true;
    }

    /** `onSuccess` of the create mutation. */
    method OnCreateSuccess()
      modifies this`formData, this`editingUser, this`isAddDialogOpen
      ensures formData == EmptyForm && editingUser == None && !isAddDialogOpen
    {
      ResetForm();
      isAddDialogOpen := false;
    }

    /** `onSuccess` of the update mutation. */
    method OnUpdateSuccess()
      modifies this`formData, this`editingUser, this`isEditDialogOpen
      ensures formData == EmptyForm && editingUser == None && !isEditDialogOpen
    {
      ResetForm();
      isEditDialogOpen := false;
    }

    method HandlePageChange(page: int)
      modifies this`currentPage
      ensures currentPage == page
    {
      currentPage := page;
    }

    method HandleItemsPerPageChange(newItemsPerPage: int)
      modifies this`itemsPerPage, this`currentPage
      ensures itemsPerPage == newItemsPerPage && currentPage == 1
    {
      itemsPerPage := newItemsPerPage;
      currentPage := 1;
    }

    /** The search box's `onChange`. */
    method HandleSearchChange(value: string)
      modifies this`searchTerm, this`currentPage
      ensures searchTerm == value && currentPage == 1
    {
      searchTerm := value;
      currentPage := 1;
    }

    /** The role select's `onValueChange`. */
    method HandleRoleFilterChange(value: string)
      modifies this`roleFilter, this`currentPage
      ensures roleFilter == value && currentPage == 1
    {
      roleFilter := value;
      currentPage := 1;
    }
  }
}
