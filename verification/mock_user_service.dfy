/** The mock user service: the same registry as `UserService`, with its own
    messages and a minimum access-key length in `register`. */
module MockUserService {
  import opened Wrappers
  import opened Registry

  const AccessDenied: string := "ACCESS DENIED: INVALID CREDENTIALS"
  const WeakKey: string := "ERROR: ACCESS KEY MUST BE > 6 CHARACTERS"
  /** Keys shorter than this are refused. The message says "> 6", but a key
      of exactly six characters is accepted. */
  const MinKeyLength: nat := 6

  function DuplicateId(id: string): string {
    "ERROR: OPERATOR ID '" + id + "' IS ALREADY REGISTERED"
  }

  /** `register`: the duplicate-id check comes first, then the key-length
      check; any failure leaves the list as read, a success appends exactly
      one OPERATOR profile and returns it. */
  function Register(st: Store, id: string, key: string, now: string): (r: Reply)
    ensures HasId(Users(st), id) ==> r.response == Failure(DuplicateId(id))
    ensures !HasId(Users(st), id) && |key| < MinKeyLength ==> r.response == Failure(WeakKey)
    ensures r.response.Success? <==> !HasId(Users(st), id) && |key| >= MinKeyLength
    ensures r.response.Failure? ==> r.store == InitDb(st)
    ensures r.response.Success? ==>
      && r.response.value.id == id && r.response.value.accessKey == key
      && r.response.value.role == OperatorRole
      && r.store.db == Some(Users(st) + [r.response.value])
    ensures r.store.session == st.session
    ensures UniqueIds(Users(st)) ==> UniqueIds(Users(r.store))
  {
    var st0 := InitDb(st);
    if IdTaken(Users(st0), id) then Reply(st0, Failure(DuplicateId(id)))
    else if |key| < MinKeyLength then Reply(st0, Failure(WeakKey))
    else Admit(st0, NewOperator(id, key, now))
  }

  /** `login` with the mock service's failure message. */
  function Login(st: Store, id: string, key: string, now: string): (r: Reply)
    ensures r.response.Success? <==> exists i :: 0 <= i < |Users(st)| && Matches(Users(st)[i], id, key)
    ensures r.response.Failure? ==> r.response.error == AccessDenied && r.store == InitDb(st)
    ensures r.response.Success? ==>
      && r.store.session == Some(r.response.value)
      && Matches(r.response.value, id, key) && r.response.value.lastLogin == now
      && |Users(r.store)| == |Users(st)|
  {
    Registry.Login(st, id, key, now, AccessDenied)
  }

  /** A key of exactly six characters is accepted, five is refused. */
  lemma KeyLengthBoundary(st: Store, id: string, now: string)
    requires !HasId(Users(st), id)
    ensures Register(st, id, "123456", now).response.Success?
    ensures Register(st, id, "12345", now).response == Failure(WeakKey)
  {
  }

  /** A taken id is reported as such even when the key is also too short. */
  lemma DuplicateBeforeKeyLength(st: Store, id: string, now: string)
    requires HasId(Users(st), id)
    ensures Register(st, id, "", now).response == Failure(DuplicateId(id))
  {
  }
}
