/** The localStorage-backed operator registry shared by both user services:
    a user list slot (absent until first initialised) and a session slot.
    The services differ only in their messages and in the key-length check
    of the mock one, which live in their own modules. */
module Registry {
  import opened Wrappers

  /** A stored operator profile. Timestamps are the ISO strings the source
      takes from the clock; they are inputs here. */
  datatype User = User(id: string, accessKey: string, createdAt: string, role: string, lastLogin: string)

  const OperatorRole: string := "OPERATOR"

  /** The two storage slots: `titan_user_db` and `titan_active_session`. */
  datatype Store = Store(db: Option<seq<User>>, session: Option<User>)

  /** A service call's answer together with the storage it leaves behind. */
  datatype Reply = Reply(store: Store, response: Result<User, string>)

  /** `initDB`: writes an empty list only when no list is stored, and never
      overwrites one that is. */
  function InitDb(st: Store): (r: Store)
    ensures r.db.Some?
    ensures st.db.Some? ==> r == st
    ensures st.db.None? ==> r.db == Some([]) && r.session == st.session
  {
    if st.db.None? then st.(db := Some([])) else st
  }

  /** The list as read back: `JSON.parse(getItem(DB_KEY) || '[]')`. */
  function Users(st: Store): seq<User> {
    st.db.GetOr([])
  }

  predicate UniqueIds(users: seq<User>) {
    forall i, j :: 0 <= i < j < |users| ==> users[i].id != users[j].id
  }

  predicate HasId(users: seq<User>, id: string) {
    exists i :: 0 <= i < |users| && users[i].id == id
  }

  predicate Matches(u: User, id: string, key: string) {
    u.id == id && u.accessKey == key
  }

  /** `users.find(u => u.id === id)` reduced to whether it finds anything. */
  function IdTaken(users: seq<User>, id: string): (b: bool)
    ensures b <==> HasId(users, id)
  {
    if users == [] then false
    else
      HasIdUnfold(users, id);
      users[0].id == id || IdTaken(users[1..], id)
  }

  lemma HasIdUnfold(users: seq<User>, id: string)
    requires users != []
    ensures HasId(users, id) <==> users[0].id == id || HasId(users[1..], id)
  {
  }

  /** The position of the first user whose id and key both match, as
      `users.find` returns the first hit. */
  function FindCredentials(users: seq<User>, id: string, key: string): (r: Option<nat>)
    ensures r.Some? <==> exists i :: 0 <= i < |users| && Matches(users[i], id, key)
    ensures r.Some? ==> r.value < |users| && Matches(users[r.value], id, key)
    ensures r.Some? ==> forall j :: 0 <= j < r.value ==> !Matches(users[j], id, key)
  {
    if users == [] then None
    else if Matches(users[0], id, key) then Some(0)
    else match FindCredentials(users[1..], id, key)
      case None => None
      case Some(k) => Some(k + 1)
  }

  /** The profile `register` creates. */
  function NewOperator(id: string, key: string, now: string): (u: User)
    ensures u.id == id && u.accessKey == key && u.role == OperatorRole
  {
    User(id, key, now, OperatorRole, now)
  }

  /** A successful `register`: the new profile is appended to the list that
      was read, the session slot is left alone. */
  function Admit(st: Store, u: User): (r: Reply)
    ensures r.store.db == Some(Users(st) + [u]) && r.store.session == st.session
    ensures r.response == Success(u)
    ensures UniqueIds(Users(st)) && !HasId(Users(st), u.id) ==> UniqueIds(Users(r.store))
  {
    Reply(Store(Some(Users(st) + [u]), st.session), Success(u))
  }

  /** `login`: on the first user matching both id and key, only that user's
      `lastLogin` is updated and that user becomes the session; with no match
      the call fails with `denied` and leaves both slots as `initDB` left
      them. */
  function Login(st: Store, id: string, key: string, now: string, denied: string): (r: Reply)
    ensures r.response.Success? <==> exists i :: 0 <= i < |Users(st)| && Matches(Users(st)[i], id, key)
    ensures r.response.Failure? ==> r.response.error == denied && r.store == InitDb(st)
    ensures r.response.Success? ==>
      var i := FindCredentials(Users(st), id, key).value;
      && r.response.value == Users(st)[i].(lastLogin := now)
      && r.store.session == Some(r.response.value)
      && r.store.db == Some(Users(st)[i := r.response.value])
    ensures UniqueIds(Users(st)) ==> UniqueIds(Users(r.store))
  {
    var st0 := InitDb(st);
    var users := Users(st0);
    match FindCredentials(users, id, key)
    case None => Reply(st0, Failure(denied))
    case Some(i) =>
      var u := users[i].(lastLogin := now);
      Reply(Store(Some(users[i := u]), Some(u)), Success(u))
  }

  /** `logout`: the session slot is emptied, the list is untouched. */
  function Logout(st: Store): (r: Store)
    ensures r.session.None? && r.db == st.db
  {
    st.(session := None)
  }

  /** `getSession`: whatever the session slot holds. */
  function GetSession(st: Store): Option<User> {
    st.session
  }

  /** After a logout there is no session; after a successful login the
      session is the user the login returned. */
  lemma SessionFollowsLoginAndLogout(st: Store, id: string, key: string, now: string, denied: string)
    ensures GetSession(Logout(st)).None?
    ensures Login(st, id, key, now, denied).response.Success? ==>
      GetSession(Login(st, id, key, now, denied).store) == Some(Login(st, id, key, now, denied).response.value)
  {
  }
}
