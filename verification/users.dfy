/**
 * The user management page: the role/search filter and the form used to
 * add or edit a user.
 */
module Users {
  import opened Util
  import opened Types

  /** How a template literal renders an optional string: an absent one reads "undefined". */
  function Rendered(o: Option<string>): string
  {
    match o
    case Some(s) => s
    case None => "undefined"
  }

  /** The full name the search looks in: first name, a space, last name, each rendered as text. */
  function FullNameText(u: User): string
  {
    Rendered(u.firstName) + " " + Rendered(u.lastName)
  }

  /** The search box matches the username, the email or the full name. */
  predicate MatchesSearch(u: User, term: string)
  {
    Includes(u.username, term) || Includes(u.email, term) || Includes(FullNameText(u), term)
  }

  /** The row filter; a `None` role is the "all roles" choice, an empty term the empty search box. */
  function KeepUser(role: Option<UserRole>, term: string): User -> bool
  {
    (u: User) => (role.Some? ==> u.role == role.value) && (term != "" ==> MatchesSearch(u, term))
  }

  /** `filteredUsers`. */
  function FilterUsers(us: seq<User>, role: Option<UserRole>, term: string): (r: seq<User>)
    ensures IsSubsequence(r, us)
    ensures role.Some? ==> forall u :: u in r ==> u.role == role.value
    ensures term != "" ==> forall u :: u in r ==> MatchesSearch(u, term)
    ensures forall u ::
      (u in us && (role.Some? ==> u.role == role.value) && (term != "" ==> MatchesSearch(u, term)))
      ==> u in r
    // every copy of a matching user is kept
    ensures forall u :: KeepUser(role, term)(u) ==> multiset(r)[u] == multiset(us)[u]
    ensures role.None? && term == "" ==> r == us
  {
    Filter(us, KeepUser(role, term))
  }

  /** A user without a first name is found by the search term "undefined". */
  lemma AbsentFirstNameMatchesUndefined(us: seq<User>, u: User)
    requires u in us && u.firstName.None?
    ensures u in FilterUsers(us, None, "undefined")
  {
    assert FullNameText(u) == "undefined" + " " + Rendered(u.lastName);
    assert "undefined" <= FullNameText(u);
  }

  /** The form's state: names are plain strings here, "" when the edited user has none. */
  datatype UserForm = UserForm(
    id: string,
    username: string,
    email: string,
    role: UserRole,
    firstName: string,
    lastName: string,
    isActive: bool)

  /**
   * The form's initial state. Names fall back to "" with `||`; `isActive`
   * uses `??`, so an inactive user stays inactive and only a new one starts active.
   */
  function InitialForm(init: Option<User>): (f: UserForm)
    ensures init.None? ==>
      f.role == Viewer && f.isActive && f.id == "" && f.username == "" && f.email == ""
      && f.firstName == "" && f.lastName == ""
    ensures init.Some? ==>
      && f.id == init.value.id && f.username == init.value.username && f.email == init.value.email
      && f.role == init.value.role && f.isActive == init.value.isActive
      && f.firstName == (if init.value.firstName.Some? then init.value.firstName.value else "")
      && f.lastName == (if init.value.lastName.Some? then init.value.lastName.value else "")
  {
    match init
    case None => UserForm("", "", "", Viewer, "", "", true)
    case Some(u) =>
      UserForm(
        u.id, u.username, u.email, u.role,
        match u.firstName case Some(s) => s case None => "",
        match u.lastName case Some(s) => s case None => "",
        u.isActive)
  }

  /** The inputs wired to `handleChange`. */
  datatype Field = FirstName | LastName | Username | Email | Role

  /** The options of the role select. */
  function RoleOf(value: string): Option<UserRole>
  {
    if value == "ADMIN" then Some(Admin)
    else if value == "STAFF" then Some(Staff)
    else if value == "VIEWER" then Some(Viewer)
    else None
  }

  /** The text a field holds, for the text inputs. */
  function TextOf(f: UserForm, field: Field): Option<string>
  {
    match field
    case FirstName => Some(f.firstName)
    case LastName => Some(f.lastName)
    case Username => Some(f.username)
    case Email => Some(f.email)
    case Role => None
  }

  /** `handleChange`: the named input's value goes into that field, and nothing else changes. */
  function Change(f: UserForm, field: Field, value: string): (r: UserForm)
    requires field == Role ==> RoleOf(value).Some?
    ensures field == Role ==> Some(r.role) == RoleOf(value)
    ensures field != Role ==> TextOf(r, field) == Some(value) && r.role == f.role
    ensures forall g :: g != field ==> TextOf(r, g) == TextOf(f, g)
    ensures r.id == f.id && r.isActive == f.isActive
  {
    match field
    case FirstName => f.(firstName := value)
    case LastName => f.(lastName := value)
    case Username => f.(username := value)
    case Email => f.(email := value)
    case Role => f.(role := RoleOf(value).value)
  }

  /** The option the status select shows for a flag. */
  function ActiveText(b: bool): string
  {
    if b then "true" else "false"
  }

  /** The status select: the text "true" means active, anything else inactive. */
  function SelectActive(f: UserForm, value: string): (r: UserForm)
    ensures r.isActive <==> value == "true"
    ensures r.(isActive := f.isActive) == f
  {
    f.(isActive := value == "true")
  }

  /** Choosing the option the select already shows leaves the form as it is. */
  lemma ChoosingShownStatusKeepsForm(f: UserForm)
    ensures SelectActive(f, ActiveText(f.isActive)) == f
  {
  }

  /** `handleSubmit`: the form's state handed on `as User`, with no check and no last login. */
  function Submit(f: UserForm): (u: User)
    ensures u.id == f.id && u.username == f.username && u.email == f.email
    ensures u.role == f.role && u.isActive == f.isActive
    ensures u.firstName == Some(f.firstName) && u.lastName == Some(f.lastName)
    ensures u.lastLogin.None?
  {
    User(f.id, f.username, f.email, f.role, Some(f.firstName), Some(f.lastName), None, f.isActive)
  }

  /** Saving an untouched edit form hands back the user, names and activity included. */
  lemma UntouchedEditRoundTrips(u: User)
    requires u.firstName.Some? && u.lastName.Some? && u.lastLogin.None?
    ensures Submit(InitialForm(Some(u))) == u
  {
  }
}
