/**
 * The admin user list: users loaded from the server with a token, filtered by search text and
 * role, deleted on a 204 answer, and replaced by the server's copy after an edit. Server
 * answers are parameters.
 */
module UserManagement {
  import opened Wrappers
  import opened Text
  import opened AppContext
  import Seqs

  /** A user row as the admin API sends it. */
  datatype ApiUser = ApiUser(id: int, name: string, email: string, role: Role, phone: Option<string>, createdAt: string)

  /** A user as the admin list keeps it. */
  datatype ListedUser = ListedUser(id: string, name: string, email: string, role: Role, phone: Option<string>, joinedDate: string)

  /** The edit form's fields. */
  datatype UserForm = UserForm(name: string, email: string, role: Role, phone: string)

  /** The body of the update request. */
  datatype UserPatch = UserPatch(name: string, email: string, phone: Option<string>, role: Role)

  const NotAuthorized: string := "You are not authorized"
  const LoadFailed: string := "Failed to load users"

  /** The row mapping: the id stringified, a null or empty phone dropped, the join date from `created_at`. */
  function MapApiUser(u: ApiUser): (r: ListedUser)
    ensures ParseInt(r.id) == Some(u.id)
    ensures r.phone.None? <==> u.phone.None? || u.phone == Some("")
    ensures r.phone.Some? ==> r.phone == u.phone && r.phone.value != ""
    ensures r.name == u.name && r.email == u.email && r.role == u.role && r.joinedDate == u.createdAt
  {
    IntToStringRoundTrip(u.id);
    ListedUser(IntToString(u.id), u.name, u.email, u.role,
               if u.phone.Some? && u.phone.value != "" then u.phone else None, u.createdAt)
  }

  /** The form `handleEdit` fills in for a user: an absent phone becomes the empty field. */
  function FormFor(u: ListedUser): UserForm {
    UserForm(u.name, u.email, u.role, u.phone.GetOr(""))
  }

  /** The update body: an empty phone field is sent as null. */
  function Patch(f: UserForm): (p: UserPatch)
    ensures p.phone.None? <==> f.phone == ""
    ensures p.phone.Some? ==> p.phone.value == f.phone
  {
    UserPatch(f.name, f.email, if f.phone == "" then None else Some(f.phone), f.role)
  }

  /** Opening a listed user for edit and saving without changes sends back exactly its fields. */
  lemma EditRoundTrip(u: ApiUser)
    ensures var l := MapApiUser(u);
      Patch(FormFor(l)) == UserPatch(l.name, l.email, l.phone, l.role)
  {
  }

  predicate UserShown(query: string, role: Choice<Role>, u: ListedUser) {
    (Includes(Lower(u.name), Lower(query)) || Includes(Lower(u.email), Lower(query))) && Admits(role, u.role)
  }

  /** `filteredUsers`: the matching users, in list order. */
  function FilteredUsers(users: seq<ListedUser>, query: string, role: Choice<Role>): (r: seq<ListedUser>)
    ensures Seqs.SubsequenceOf(r, users)
    ensures forall i :: 0 <= i < |r| ==> UserShown(query, role, r[i])
    ensures forall i :: 0 <= i < |users| && UserShown(query, role, users[i]) ==> users[i] in r
  {
    Seqs.FilterIsSubsequence(users, (u: ListedUser) => UserShown(query, role, u));
    Seqs.Filter(users, (u: ListedUser) => UserShown(query, role, u))
  }

  /** The list after a successful delete: every user with another id, in list order, and no other. */
  function WithoutUser(users: seq<ListedUser>, id: string): (r: seq<ListedUser>)
    ensures Seqs.SubsequenceOf(r, users)
    ensures forall i :: 0 <= i < |r| ==> r[i].id != id && r[i] in users
    ensures forall i :: 0 <= i < |users| && users[i].id != id ==> users[i] in r
  {
    Seqs.FilterIsSubsequence(users, (u: ListedUser) => u.id != id);
    Seqs.Filter(users, (u: ListedUser) => u.id != id)
  }

  /** The list after a successful update: every user with the returned id becomes the returned user. */
  function WithUpdated(users: seq<ListedUser>, updated: ListedUser): (r: seq<ListedUser>)
    ensures |r| == |users|
    ensures forall i :: 0 <= i < |r| ==> (if users[i].id == updated.id then r[i] == updated else r[i] == users[i])
  {
    Seqs.Map(users, (u: ListedUser) => if u.id == updated.id then updated else u)
  }

  predicate DistinctIds(users: seq<ListedUser>) {
    forall i, j :: 0 <= i < j < |users| ==> users[i].id != users[j].id
  }

  /** With distinct ids, a delete removes the one user with that id and keeps the others in order. */
  lemma WithoutUserDropsOne(users: seq<ListedUser>, k: int)
    requires DistinctIds(users) && 0 <= k < |users|
    ensures WithoutUser(users, users[k].id) == users[..k] + users[k + 1..]
  {
    Seqs.FilterDropOne(users, (u: ListedUser) => u.id != users[k].id, k);
  }

  /** With distinct ids, an update replaces exactly the user with the returned id. */
  lemma WithUpdatedReplacesOne(users: seq<ListedUser>, updated: ListedUser, k: int)
    requires DistinctIds(users) && 0 <= k < |users| && users[k].id == updated.id
    ensures WithUpdated(users, updated) == users[k := updated]
  {
    Seqs.MapOnlyAt(users, (u: ListedUser) => if u.id == updated.id then updated else u, k);
  }

  /** An update whose id is not listed changes nothing. */
  lemma WithUpdatedAbsent(users: seq<ListedUser>, updated: ListedUser)
    requires forall i :: 0 <= i < |users| ==> users[i].id != updated.id
    ensures WithUpdated(users, updated) == users
  {
    Seqs.MapUnchanged(users, (u: ListedUser) => if u.id == updated.id then updated else u);
  }

  class UserAdmin {
    var users: seq<ListedUser>
    var loading: bool
    var loadError: Option<string>
    var editingUser: Option<ListedUser>
    var showModal: bool

    constructor ()
      ensures users == [] && loading && loadError == None && editingUser == None && !showModal
    {
      users := [];
      loading := true;
      loadError := None;
      editingUser := None;
      showModal := false;
    }

    /**
     * The initial load. Without a token nothing is requested and the list stays as it is;
     * otherwise the mapped rows, or the error message (the default one when it is empty).
     */
    method Load(token: Option<string>, reply: Outcome<seq<ApiUser>>)
      modifies this
      ensures !loading
      ensures !HasToken(token) ==> loadError == Some(NotAuthorized) && users == old(users)
      ensures HasToken(token) && reply.Success? ==> users == Seqs.Map(reply.value, MapApiUser) && loadError == None
      ensures HasToken(token) && reply.Failure? ==>
        users == old(users) && loadError == Some(if reply.message == "" then LoadFailed else reply.message)
      ensures editingUser == old(editingUser) && showModal == old(showModal)
    {
      if !HasToken(token) {
        loadError := Some(NotAuthorized);
        loading := false;
        return;
      }
      loadError := None;
      match reply {
        case Success(rows) =>
          users := Seqs.Map(rows, MapApiUser);
        case Failure(message) =>
          loadError := Some(if message == "" then LoadFailed else message);
      }
      loading := false;
    }

    /** `handleEdit`: opens the form on that user. */
    method HandleEdit(u: ListedUser) returns (form: UserForm)
      modifies this
      ensures editingUser == Some(u) && showModal && form == FormFor(u)
      ensures users == old(users) && loading == old(loading) && loadError == old(loadError)
    {
      editingUser := Some(u);
      showModal := true;
      form := FormFor(u);
    }

    /** `handleAddNew`: opens an empty form. */
    method HandleAddNew() returns (form: UserForm)
      modifies this
      ensures editingUser == None && showModal && form == UserForm("", "", Customer, "")
      ensures users == old(users) && loading == old(loading) && loadError == old(loadError)
    {
      editingUser := None;
      showModal := true;
      form := UserForm("", "", Customer, "");
    }

    /**
     * `handleDelete(id)`: nothing without a token or a confirmation; otherwise the user leaves
     * the list only when the server answers 204.
     */
    method HandleDelete(id: string, token: Option<string>, confirmed: bool, status: int)
      modifies this
      ensures HasToken(token) && confirmed && status == 204 ==> users == WithoutUser(old(users), id)
      ensures !(HasToken(token) && confirmed && status == 204) ==> users == old(users)
      ensures loading == old(loading) && loadError == old(loadError)
      ensures editingUser == old(editingUser) && showModal == old(showModal)
    {
      if !HasToken(token) || !confirmed {
        return;
      }
      if status == 204 {
        users := WithoutUser(users, id);
      }
    }

    /**
     * `handleSubmit`: nothing without a token. Editing: the server's updated row (`None` for a
     * refused or failed request) replaces the users with its id and closes the form. Adding is
     * not supported and changes nothing.
     */
    method HandleSubmit(token: Option<string>, reply: Option<ApiUser>)
      modifies this
      ensures HasToken(token) && editingUser.Some? && reply.Some? ==>
        users == WithUpdated(old(users), MapApiUser(reply.value)) && !showModal
      ensures !(HasToken(token) && editingUser.Some? && reply.Some?) ==>
        users == old(users) && showModal == old(showModal)
      ensures loading == old(loading) && loadError == old(loadError) && editingUser == old(editingUser)
    {
      if !HasToken(token) {
        return;
      }
      if editingUser.Some? {
        if reply.None? {
          return;
        }
        users := WithUpdated(users, MapApiUser(reply.value));
        showModal := false;
      }
    }
  }
}
