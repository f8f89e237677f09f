/** The localStorage user service the application imports. */
module UserService {
  import opened Wrappers
  import opened Registry

  const DuplicateId: string := "OPERATOR ID ALREADY EXISTS"
  const InvalidCredentials: string := "INVALID CREDENTIALS"

  /** `register`: fails when the id is already stored, leaving the list as
      read; otherwise appends exactly one OPERATOR profile with the given id
      and key. The session slot is never written, and stored ids stay
      unique. */
  function Register(st: Store, id: string, key: string, now: string): (r: Reply)
    ensures r.response.Failure? <==> HasId(Users(st), id)
    ensures r.response.Failure? ==> r.response.error == DuplicateId && r.store == InitDb(st)
    ensures r.response.Success? ==>
      && r.response.value.id == id && r.response.value.accessKey == key
      && r.response.value.role == OperatorRole
      && r.store.db == Some(Users(st) + [r.response.value])
    ensures r.store.session == st.session
    ensures UniqueIds(Users(st)) ==> UniqueIds(Users(r.store))
  {
    var st0 := InitDb(st);
    if IdTaken(Users(st0), id) then Reply(st0, Failure(DuplicateId))
    else Admit(st0, NewOperator(id, key, now))
  }

  /** `login` with this service's failure message. */
  function Login(st: Store, id: string, key: string, now: string): (r: Reply)
    ensures r.response.Success? <==> exists i :: 0 <= i < |Users(st)| && Matches(Users(st)[i], id, key)
    ensures r.response.Failure? ==> r.response.error == InvalidCredentials && r.store == InitDb(st)
    ensures r.response.Success? ==>
      && r.store.session == Some(r.response.value)
      && Matches(r.response.value, id, key) && r.response.value.lastLogin == now
    ensures UniqueIds(Users(st)) ==> UniqueIds(Users(r.store))
  {
    Registry.Login(st, id, key, now, InvalidCredentials)
  }

  /** Registering an id and then logging in with the same id and key
      succeeds and opens a session for that operator. */
  lemma RegisterThenLogin(st: Store, id: string, key: string, t1: string, t2: string)
    requires Register(st, id, key, t1).response.Success?
    ensures var st1 := Register(st, id, key, t1).store;
      && Login(st1, id, key, t2).response.Success?
      && GetSession(Login(st1, id, key, t2).store).Some?
      && GetSession(Login(st1, id, key, t2).store).value.id == id
  {
    var st1 := Register(st, id, key, t1).store;
    assert Matches(Users(st1)[|Users(st1)| - 1], id, key);
  }
}
