/**
 * The user-management screen (app/employees.tsx) without its rendering:
 * the filter applied to the user list, the filter update, the append
 * after a successful POST, and the shape check on the fetched list.
 * Network replies are inputs; JSON encoding is not modelled.
 */
module Employees {
  import opened Wrappers
  import opened Sequences
  import opened Strings

  /**
   * A user record as the API returns it. The four fields the filter reads
   * may be missing; every other field (email, role details, salary, ...)
   * is carried unread in `details`.
   */
  datatype User = User(
    idNumber: Option<string>,
    role: Option<string>,
    name: Option<string>,
    surname: Option<string>,
    details: map<string, string>)

  /** JavaScript truthiness of an optional string field: present and non-empty. */
  predicate Truthy(field: Option<string>)
  {
    field.Some? && field.value != ""
  }

  /** The three filter inputs of the screen. */
  datatype Filters = Filters(idNumber: string, role: string, name: string)

  /** The keys the filter inputs pass to the change handler. */
  datatype FilterKey = IdNumberKey | RoleKey | NameKey

  const NoFilters := Filters("", "", "")

  function FilterValue(f: Filters, key: FilterKey): string
  {
    match key
    case IdNumberKey => f.idNumber
    case RoleKey => f.role
    case NameKey => f.name
  }

  /** `handleFilterChange(key, value)`: `{ ...filters, [key]: value }`. */
  function WithFilter(f: Filters, key: FilterKey, value: string): (r: Filters)
    ensures FilterValue(r, key) == value
    ensures forall k :: k != key ==> FilterValue(r, k) == FilterValue(f, k)
  {
    match key
    case IdNumberKey => f.(idNumber := value)
    case RoleKey => f.(role := value)
    case NameKey => f.(name := value)
  }

  /** Case-insensitive containment used for the name filter. */
  predicate NameIncludes(field: Option<string>, part: string)
  {
    Truthy(field) && Includes(ToLower(field.value), ToLower(part))
  }

  /** The callback given to `users.filter`: ID and role case-sensitively, name or surname ignoring case. */
  predicate Matches(u: User, f: Filters)
  {
    && Truthy(u.idNumber) && Includes(u.idNumber.value, f.idNumber)
    && Truthy(u.role) && Includes(u.role.value, f.role)
    && (NameIncludes(u.name, f.name) || NameIncludes(u.surname, f.name))
  }

  /** `filteredUsers`: the users shown under the current filters. */
  function FilteredUsers(users: seq<User>, f: Filters): seq<User>
  {
    Filter(users, (u: User) => Matches(u, f))
  }

  /** The filtered list only drops users; the remaining ones keep their order. */
  lemma FilteredUsersIsSubsequence(users: seq<User>, f: Filters)
    ensures IsSubsequence(FilteredUsers(users, f), users)
  {
    FilterIsSubsequence(users, (u: User) => Matches(u, f));
  }

  /** A user is shown exactly when it is in the list and passes all three conditions, as many times as it occurs. */
  lemma FilteredUsersMembership(users: seq<User>, f: Filters, u: User)
    ensures u in FilteredUsers(users, f) <==>
      && u in users
      && Truthy(u.idNumber) && Includes(u.idNumber.value, f.idNumber)
      && Truthy(u.role) && Includes(u.role.value, f.role)
      && (NameIncludes(u.name, f.name) || NameIncludes(u.surname, f.name))
    ensures multiset(FilteredUsers(users, f))[u] == if Matches(u, f) then multiset(users)[u] else 0
  {
    FilterMembership(users, (u: User) => Matches(u, f), u);
    FilterCount(users, (u: User) => Matches(u, f), u);
  }

  /**
   * With every filter empty, a user is shown exactly when its ID and role
   * are non-empty and its name or surname is non-empty.
   */
  lemma NoFiltersShowsComplete(users: seq<User>, u: User)
    ensures u in FilteredUsers(users, NoFilters) <==>
      u in users && Truthy(u.idNumber) && Truthy(u.role) && (Truthy(u.name) || Truthy(u.surname))
  {
    FilteredUsersMembership(users, NoFilters, u);
    assert ToLower("") == "";
    if u.idNumber.Some? { assert "" <= u.idNumber.value; }
    if u.role.Some? { assert "" <= u.role.value; }
    if u.name.Some? { assert "" <= ToLower(u.name.value); }
    if u.surname.Some? { assert "" <= ToLower(u.surname.value); }
  }

  /** A user with a missing or empty ID or role is never shown, whatever the filters. */
  lemma IncompleteUsersHidden(users: seq<User>, f: Filters, u: User)
    requires !Truthy(u.idNumber) || !Truthy(u.role)
    ensures u !in FilteredUsers(users, f)
  {
    FilteredUsersMembership(users, f, u);
  }

  /** The name filter ignores case: two name filters that agree after lower-casing show the same users. */
  lemma {:induction false} NameFilterIgnoresCase(users: seq<User>, f: Filters, name: string)
    requires ToLower(name) == ToLower(f.name)
    ensures FilteredUsers(users, f.(name := name)) == FilteredUsers(users, f)
  {
    if users != [] {
      NameFilterIgnoresCase(users[1..], f, name);
      assert Matches(users[0], f.(name := name)) == Matches(users[0], f);
    }
  }

  /** The case of a user's name or surname does not change whether the name filter accepts it. */
  lemma NameFieldIgnoresCase(text: string, part: string)
    ensures NameIncludes(Some(text), part) <==> NameIncludes(Some(ToLower(text)), part)
  {
    ToLowerIdempotent(text);
  }

  /** The ID filter keeps case: a filter with a lower-case letter misses every ID that has none. */
  lemma IdFilterMissesLowerCase(u: User, f: Filters, j: int)
    requires u.idNumber.Some? && forall c :: c in u.idNumber.value ==> !IsLower(c)
    requires 0 <= j < |f.idNumber| && IsLower(f.idNumber[j])
    ensures !Matches(u, f)
  {
    if Includes(u.idNumber.value, f.idNumber) {
      IncludesNeedsEveryChar(u.idNumber.value, f.idNumber, j);
    }
  }

  /** The role filter keeps case: a filter with a lower-case letter misses every role that has none. */
  lemma RoleFilterMissesLowerCase(u: User, f: Filters, j: int)
    requires u.role.Some? && forall c :: c in u.role.value ==> !IsLower(c)
    requires 0 <= j < |f.role| && IsLower(f.role[j])
    ensures !Matches(u, f)
  {
    if Includes(u.role.value, f.role) {
      IncludesNeedsEveryChar(u.role.value, f.role, j);
    }
  }

  /** One user that an upper-case ID and role filter shows, a lower-case one hides, and an upper-case name filter still shows. */
  lemma IdFilterIsCaseSensitive()
    ensures var u := User(Some("AB7"), Some("Dev"), Some("Ann"), None, map[]);
      && Matches(u, Filters("AB", "Dev", "ANN"))
      && !Matches(u, Filters("ab", "Dev", "ANN"))
      && !Matches(u, Filters("AB", "dev", "ANN"))
  {
    assert "AB" <= "AB7";
    assert "Dev" <= "Dev";
    assert ToLower("ANN") == "ann" && ToLower("Ann") == "ann";
    assert !Includes("", "ab");
    assert "7"[0] != "ab"[0];
    assert !Includes("7", "ab");
    assert "B7"[0] != "ab"[0];
    assert !Includes("B7", "ab");
    assert "AB7"[0] != "ab"[0];
    assert !Includes("ev", "dev") && !Includes("v", "dev") && !Includes("", "dev");
    assert "Dev"[0] != "dev"[0];
    assert !Includes("Dev", "dev");
  }

  /** The eleven inputs of the "Add New User" form. */
  datatype UserForm = UserForm(
    name: string, surname: string, idNumber: string, email: string,
    password: string, role: string, designation: string, joiningDate: string,
    salary: string, phone: string, address: string)

  const EmptyForm := UserForm("", "", "", "", "", "", "", "", "", "", "")

  /** What `data.users` turned out to be in the GET reply. */
  datatype UsersField =
    | UserArray(items: seq<User>)  // an array, possibly empty (an empty array is truthy)
    | NotAUserArray                // missing, falsy, or some other value

  /** The outcome of `fetch` followed by `response.json()` for the GET. */
  datatype FetchReply = FetchFailed | Received(users: UsersField)

  /** The outcome of the POST: no response, or the `ok` flag and the parsed body (None when it did not parse). */
  datatype PostReply = PostFailed | PostResponse(ok: bool, body: Option<User>)

  const FetchError := "Failed to fetch users. Please check the API or try again later."
  const AddError := "Failed to add user. Please try again later."

  /** The component state of the screen (formVisible is rendering only and is not kept). */
  class UserManagement {
    var users: seq<User>
    var error: Option<string>
    var newUser: UserForm
    var filters: Filters

    /** The initial `useState` values. */
    constructor ()
      ensures users == [] && error == None && newUser == EmptyForm && filters == NoFilters
    {
      users := [];
      error := None;
      newUser := EmptyForm;
      filters := NoFilters;
    }

    /** The users rendered as cards. */
    function Shown(): (r: seq<User>)
      reads this
      ensures IsSubsequence(r, users)
      ensures forall u :: u in r <==> u in users && Matches(u, filters)
      ensures forall u :: multiset(r)[u] == if Matches(u, filters) then multiset(users)[u] else 0
    {
      FilteredUsersIsSubsequence(users, filters);
      forall u
        ensures u in FilteredUsers(users, filters) <==> u in users && Matches(u, filters)
        ensures multiset(FilteredUsers(users, filters))[u] == if Matches(u, filters) then multiset(users)[u] else 0
      {
        FilteredUsersMembership(users, filters, u);
      }
      FilteredUsers(users, filters)
    }

    /** `fetchUsers`: take the list only when the reply carries an array under `users`; otherwise record the error. */
    method FetchUsers(reply: FetchReply)
      modifies this
      ensures reply.Received? && reply.users.UserArray? ==>
        users == reply.users.items && error == old(error)
      ensures !(reply.Received? && reply.users.UserArray?) ==>
        users == old(users) && error == Some(FetchError)
      ensures newUser == old(newUser) && filters == old(filters)
    {
      if reply.Received? && reply.users.UserArray? {
        users := reply.users.items;
      } else {
        error := Some(FetchError);
      }
    }

    /** `handleAddUser`: on an ok, parsed reply append the added user and clear the form; otherwise record the error. */
    method AddUser(reply: PostReply)
      modifies this
      ensures reply.PostResponse? && reply.ok && reply.body.Some? ==>
        users == old(users) + [reply.body.value] && newUser == EmptyForm && error == old(error)
      ensures !(reply.PostResponse? && reply.ok && reply.body.Some?) ==>
        users == old(users) && newUser == old(newUser) && error == Some(AddError)
      ensures filters == old(filters)
    {
      if reply.PostResponse? && reply.ok && reply.body.Some? {
        users := users + [reply.body.value];
        newUser := EmptyForm;
      } else {
        error := Some(AddError);
      }
    }

    /** `handleFilterChange`: replace exactly one filter value. */
    method ChangeFilter(key: FilterKey, value: string)
      modifies this
      ensures FilterValue(filters, key) == value
      ensures forall k :: k != key ==> FilterValue(filters, k) == FilterValue(old(filters), k)
      ensures users == old(users) && error == old(error) && newUser == old(newUser)
    {
      filters := WithFilter(filters, key, value);
    }
  }
}
