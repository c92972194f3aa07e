/** internal/server/domain/user/usecase: login and registration as chains
    of early returns over the user store and bcrypt. The store is two
    functions: the answer GetUserByLogin gives for a login, and the answer
    AddUser gives for a (login, hash) pair. */
module UserUsecase {
  import opened Errors
  import opened Wrappers
  import opened Kcrypt

  /** user.User; `password` is the stored bcrypt hash. */
  datatype User = User(id: string, login: string, password: Digest, createdAt: int)

  /** Login: a store error propagates, an unknown login is UserNotFound, a
      password that does not check against the stored hash is BadPass,
      and otherwise the stored user is returned. */
  function Login(login: string, password: string, getUserByLogin: string -> Result<Option<User>>): (r: Result<User>)
    ensures getUserByLogin(login).Err? ==> r == Err(getUserByLogin(login).error)
    ensures getUserByLogin(login) == Ok(None) ==> r == Err(UserNotFound)
    ensures getUserByLogin(login).Ok? && getUserByLogin(login).value.Some? ==>
      var u := getUserByLogin(login).value.value;
      if Check(password, u.password) then r == Ok(u) else r == Err(BadPass)
  {
    match getUserByLogin(login)
    case Err(e) => Err(e)
    case Ok(None) => Err(UserNotFound)
    case Ok(Some(u)) => if !Check(password, u.password) then Err(BadPass) else Ok(u)
  }

  /** Register: hash the password with the salt bcrypt draws (`None` when
      hashing fails), then hand the login and the hash to the store. */
  function Register(login: string, password: string, salt: Option<Salt>,
                    addUser: (string, Digest) -> Result<User>): (r: Result<User>)
    ensures salt.None? ==> r == Err(HashFailure)
    ensures salt.Some? ==> exists d :: Check(password, d) && r == addUser(login, d)
  {
    match Hash(password, salt)
    case Err(e) => Err(e)
    case Ok(passhash) =>
      CheckHash(password, password, salt.value);
      addUser(login, passhash)
  }

  /** When hashing fails the store is never consulted: the answer is the
      same whatever AddUser would have done. */
  lemma HashFailureSkipsStore(login: string, password: string,
                              add1: (string, Digest) -> Result<User>, add2: (string, Digest) -> Result<User>)
    ensures Register(login, password, None, add1) == Register(login, password, None, add2)
  {
  }

  /** A store that files what it is given under the login: whoever
      registered can log in with the same password, and with no other. */
  lemma RegisterThenLogin(login: string, password: string, other: string, salt: Salt,
                          addUser: (string, Digest) -> Result<User>, getUserByLogin: string -> Result<Option<User>>)
    requires Register(login, password, Some(salt), addUser).Ok?
    requires var u := Register(login, password, Some(salt), addUser).value;
      getUserByLogin(login) == Ok(Some(u))
    requires forall d :: addUser(login, d).Ok? ==> addUser(login, d).value.password == d
    ensures var u := Register(login, password, Some(salt), addUser).value;
      Login(login, password, getUserByLogin) == Ok(u)
      && (other != password ==> Login(login, other, getUserByLogin) == Err(BadPass))
  {
    var d := Hash(password, Some(salt)).value;
    CheckHash(password, other, salt);
    assert Register(login, password, Some(salt), addUser) == addUser(login, d);
  }
}
