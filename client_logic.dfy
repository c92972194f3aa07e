/** internal/client/logic: the client's session state machine.

    The remote service (IQueryClient) and the vault (SecureRepository) are
    collaborators whose answers the model does not determine: each is a
    class whose reply fields hold whatever the next call of each kind
    answers (any value at all, so every contract below holds for every
    answer), and whose ghost `calls` log records the calls made, in order.
    The logic's contracts say which calls it makes, with which arguments,
    and how each answer moves the four session fields. */
module ClientLogic {
  import opened Errors
  import opened Wrappers
  import opened Session
  import opened ClientDto
  import RecordForm

  datatype QueryCall =
    | QLogin(login: string, pass: string)
    | QRegister(login: string, pass: string)
    | QGetRecords(token: string)
    | QUpdateRecord(token: string, record: ServerRecord)
    | QAddRecord(token: string, record: ServerRecord)
    | QAddRecordFile(token: string, record: ServerRecord)
    | QDeleteRecord(token: string, id: string)

  /** IQueryClient. */
  class QueryClient {
    var loginReply: Result<User>
    var registerReply: Result<User>
    var recordsReply: Result<seq<ClientRecord>>
    var updateReply: Option<Error>
    var addReply: Option<Error>
    var addFileReply: Option<Error>
    var deleteReply: Option<Error>
    ghost var calls: seq<QueryCall>

    constructor (login: Result<User>, register: Result<User>, records: Result<seq<ClientRecord>>,
                 update: Option<Error>, add: Option<Error>, addFile: Option<Error>, delete: Option<Error>)
      ensures loginReply == login && registerReply == register && recordsReply == records
      ensures updateReply == update && addReply == add && addFileReply == addFile && deleteReply == delete
      ensures calls == []
    {
      loginReply, registerReply, recordsReply := login, register, records;
      updateReply, addReply, addFileReply, deleteReply := update, add, addFile, delete;
      calls := [];
    }

    method Login(login: string, pass: string) returns (r: Result<User>)
      modifies this`calls
      ensures calls == old(calls) + [QLogin(login, pass)] && r == loginReply
    {
      calls := calls + [QLogin(login, pass)];
      r := loginReply;
    }

    method Register(login: string, pass: string) returns (r: Result<User>)
      modifies this`calls
      ensures calls == old(calls) + [QRegister(login, pass)] && r == registerReply
    {
      calls := calls + [QRegister(login, pass)];
      r := registerReply;
    }

    method GetRecords(token: string) returns (r: Result<seq<ClientRecord>>)
      modifies this`calls
      ensures calls == old(calls) + [QGetRecords(token)] && r == recordsReply
    {
      calls := calls + [QGetRecords(token)];
      r := recordsReply;
    }

    method UpdateRecord(token: string, record: ServerRecord) returns (err: Option<Error>)
      modifies this`calls
      ensures calls == old(calls) + [QUpdateRecord(token, record)] && err == updateReply
    {
      calls := calls + [QUpdateRecord(token, record)];
      err := updateReply;
    }

    method AddRecord(token: string, record: ServerRecord) returns (err: Option<Error>)
      modifies this`calls
      ensures calls == old(calls) + [QAddRecord(token, record)] && err == addReply
    {
      calls := calls + [QAddRecord(token, record)];
      err := addReply;
    }

    method AddRecordFile(token: string, record: ServerRecord) returns (err: Option<Error>)
      modifies this`calls
      ensures calls == old(calls) + [QAddRecordFile(token, record)] && err == addFileReply
    {
      calls := calls + [QAddRecordFile(token, record)];
      err := addFileReply;
    }

    method DeleteRecord(token: string, id: string) returns (err: Option<Error>)
      modifies this`calls
      ensures calls == old(calls) + [QDeleteRecord(token, id)] && err == deleteReply
    {
      calls := calls + [QDeleteRecord(token, id)];
      err := deleteReply;
    }
  }

  datatype StoreCall =
    | SGetRecords(userID: string, pin: string)
    | SUpdateRecords(userID: string, pin: string, records: seq<ClientRecord>)
    | SCreateUser(userID: string, login: string)
    | SClearUser(userID: string)
    | SLoadLastUser
    | SUpdateUserPin(userID: string, pin: string)
    | SUpdateUserToken(userID: string, pin: string, token: string)
    | SCheckUserPin(userID: string, pin: string)

  /** SecureRepository. */
  class Store {
    var recordsReply: Result<seq<ClientRecord>>
    var updateRecordsReply: Option<Error>
    var createUserReply: Result<UserInfo>
    var clearUserReply: Option<Error>
    var lastUserReply: Result<Option<UserInfo>>
    var updatePinReply: Option<Error>
    var updateTokenReply: Option<Error>
    var checkPinReply: Result<(bool, string)>
    ghost var calls: seq<StoreCall>

    constructor (records: Result<seq<ClientRecord>>, updateRecords: Option<Error>, createUser: Result<UserInfo>,
                 clearUser: Option<Error>, lastUser: Result<Option<UserInfo>>, updatePin: Option<Error>,
                 updateToken: Option<Error>, checkPin: Result<(bool, string)>)
      ensures recordsReply == records && updateRecordsReply == updateRecords && createUserReply == createUser
      ensures clearUserReply == clearUser && lastUserReply == lastUser && updatePinReply == updatePin
      ensures updateTokenReply == updateToken && checkPinReply == checkPin
      ensures calls == []
    {
      recordsReply, updateRecordsReply, createUserReply := records, updateRecords, createUser;
      clearUserReply, lastUserReply, updatePinReply := clearUser, lastUser, updatePin;
      updateTokenReply, checkPinReply := updateToken, checkPin;
      calls := [];
    }

    method GetRecords(userID: string, pin: string) returns (r: Result<seq<ClientRecord>>)
      modifies this`calls
      ensures calls == old(calls) + [SGetRecords(userID, pin)] && r == recordsReply
    {
      calls := calls + [SGetRecords(userID, pin)];
      r := recordsReply;
    }

    method UpdateRecords(userID: string, pin: string, records: seq<ClientRecord>) returns (err: Option<Error>)
      modifies this`calls
      ensures calls == old(calls) + [SUpdateRecords(userID, pin, records)] && err == updateRecordsReply
    {
      calls := calls + [SUpdateRecords(userID, pin, records)];
      err := updateRecordsReply;
    }

    method CreateUser(userID: string, login: string) returns (r: Result<UserInfo>)
      modifies this`calls
      ensures calls == old(calls) + [SCreateUser(userID, login)] && r == createUserReply
    {
      calls := calls + [SCreateUser(userID, login)];
      r := createUserReply;
    }

    method ClearUser(userID: string) returns (err: Option<Error>)
      modifies this`calls
      ensures calls == old(calls) + [SClearUser(userID)] && err == clearUserReply
    {
      calls := calls + [SClearUser(userID)];
      err := clearUserReply;
    }

    method LoadLastUser() returns (r: Result<Option<UserInfo>>)
      modifies this`calls
      ensures calls == old(calls) + [SLoadLastUser] && r == lastUserReply
    {
      calls := calls + [SLoadLastUser];
      r := lastUserReply;
    }

    method UpdateUserPin(userID: string, pin: string) returns (err: Option<Error>)
      modifies this`calls
      ensures calls == old(calls) + [SUpdateUserPin(userID, pin)] && err == updatePinReply
    {
      calls := calls + [SUpdateUserPin(userID, pin)];
      err := updatePinReply;
    }

    method UpdateUserToken(userID: string, pin: string, token: string) returns (err: Option<Error>)
      modifies this`calls
      ensures calls == old(calls) + [SUpdateUserToken(userID, pin, token)] && err == updateTokenReply
    {
      calls := calls + [SUpdateUserToken(userID, pin, token)];
      err := updateTokenReply;
    }

    method CheckUserPin(userID: string, pin: string) returns (r: Result<(bool, string)>)
      modifies this`calls
      ensures calls == old(calls) + [SCheckUserPin(userID, pin)] && r == checkPinReply
    {
      calls := calls + [SCheckUserPin(userID, pin)];
      r := checkPinReply;
    }
  }

  /** The state a profile summary puts a loaded session in: NeedPin when it
      has no PIN hash yet, Suspended when it has one. */
  function StateFor(u: UserInfo): (s: State)
    ensures s == NeedPin <==> u.hashPin.None?
    ensures s == NeedPin || s == Suspended
  {
    if u.hashPin.None? then NeedPin else Suspended
  }

  /** appLogic. */
  class AppLogic {
    const query: QueryClient
    const repo: Store
    var state: State
    var pin: string
    var token: string
    var userID: string

    /** An active session always belongs to a user: the only way in
        (CheckPin, SetPin) requires one. */
    ghost predicate Valid()
      reads this
    {
      state == Active ==> |userID| > 0
    }

    /** New. */
    constructor (q: QueryClient, r: Store)
      ensures Valid()
      ensures query == q && repo == r
      ensures state == NoSession && pin == "" && token == "" && userID == ""
    {
      query, repo := q, r;
      state := NoSession;
      pin, token, userID := "", "", "";
    }

    /** What SyncRecords does, from query log `q0` and store log `r0`: nothing
        unless the session is active; otherwise fetch with the session token
        and, if the fetch succeeds, write exactly the fetched list under the
        session's user and PIN. */
    ghost predicate Synced(q0: seq<QueryCall>, r0: seq<StoreCall>, err: Option<Error>)
      reads this, query, repo
    {
      if state != Active then
        query.calls == q0 && repo.calls == r0 && err == None
      else
        && query.calls == q0 + [QGetRecords(token)]
        && match query.recordsReply
           case Err(e) => repo.calls == r0 && err == Some(e)
           case Ok(rs) => repo.calls == r0 + [SUpdateRecords(userID, pin, rs)] && err == repo.updateRecordsReply
    }

    /** destroySession. */
    method DestroySession() returns (err: Option<Error>)
      requires Valid()
      modifies this, repo`calls
      ensures Valid()
      ensures repo.calls == old(repo.calls) + [SClearUser(old(userID))]
      ensures err == repo.clearUserReply
      ensures err.Some? ==> state == old(state) && pin == old(pin) && token == old(token) && userID == old(userID)
      ensures err.None? ==> state == NoSession && pin == "" && token == "" && userID == ""
    {
      err := repo.ClearUser(userID);
      if err.Some? {
        return;
      }
      userID := "";
      token := "";
      pin := "";
      state := NoSession;
    }

    /** createSession: register the profile in the vault, then enter
        NeedPin or Suspended by the profile's PIN hash. */
    method CreateSession(user: User) returns (err: Option<Error>)
      requires Valid()
      modifies this, repo`calls
      ensures Valid()
      ensures repo.calls == old(repo.calls) + [SCreateUser(user.id, user.login)]
      ensures repo.createUserReply.Err? ==>
        err == Some(repo.createUserReply.error)
        && state == old(state) && pin == old(pin) && token == old(token) && userID == old(userID)
      ensures repo.createUserReply.Ok? ==>
        err == None && state == StateFor(repo.createUserReply.value)
        && userID == user.id && token == user.token && pin == old(pin)
    {
      var u := repo.CreateUser(user.id, user.login);
      if u.Err? {
        return Some(u.error);
      }
      state := StateFor(u.value);
      userID := user.id;
      token := user.token;
      return None;
    }

    /** activateSession. */
    method ActivateSession(p: string)
      requires |userID| > 0
      modifies this
      ensures Valid()
      ensures state == Active && pin == p && token == old(token) && userID == old(userID)
    {
      pin := p;
      state := Active;
    }

    /** LoadUser: resume the most recent profile, if any. The session token
        is not touched. */
    method LoadUser() returns (err: Option<Error>)
      requires Valid()
      modifies this, repo`calls
      ensures Valid()
      ensures repo.calls == old(repo.calls) + [SLoadLastUser]
      ensures pin == old(pin) && token == old(token)
      ensures match repo.lastUserReply
        case Err(e) => err == Some(e) && state == old(state) && userID == old(userID)
        case Ok(None) => err == None && state == NoSession && userID == old(userID)
        case Ok(Some(u)) => err == None && state == StateFor(u) && userID == u.id
    {
      var u := repo.LoadLastUser();
      if u.Err? {
        return Some(u.error);
      }
      if u.value.Some? {
        state := StateFor(u.value.value);
        userID := u.value.value.id;
      } else {
        state := NoSession;
      }
      return None;
    }

    /** Login: authenticate with the server, then create the session. */
    method Login(login: string, pass: string) returns (err: Option<Error>)
      requires Valid()
      modifies this, query`calls, repo`calls
      ensures Valid()
      ensures query.calls == old(query.calls) + [QLogin(login, pass)]
      ensures query.loginReply.Err? ==>
        err == Some(query.loginReply.error) && repo.calls == old(repo.calls)
        && state == old(state) && pin == old(pin) && token == old(token) && userID == old(userID)
      ensures query.loginReply.Ok? ==> SessionCreated(query.loginReply.value, old(repo.calls), old(state),
                                                      old(pin), old(token), old(userID), err)
    {
      var u := query.Login(login, pass);
      if u.Err? {
        return Some(u.error);
      }
      err := CreateSession(u.value);
    }

    /** Register: create the account on the server, then the session. */
    method Register(login: string, pass: string) returns (err: Option<Error>)
      requires Valid()
      modifies this, query`calls, repo`calls
      ensures Valid()
      ensures query.calls == old(query.calls) + [QRegister(login, pass)]
      ensures query.registerReply.Err? ==>
        err == Some(query.registerReply.error) && repo.calls == old(repo.calls)
        && state == old(state) && pin == old(pin) && token == old(token) && userID == old(userID)
      ensures query.registerReply.Ok? ==> SessionCreated(query.registerReply.value, old(repo.calls), old(state),
                                                         old(pin), old(token), old(userID), err)
    {
      var u := query.Register(login, pass);
      if u.Err? {
        return Some(u.error);
      }
      err := CreateSession(u.value);
    }

    /** The outcome of createSession for `user`, the session having been
        (state0, pin0, token0, userID0) with store log r0. */
    ghost predicate SessionCreated(user: User, r0: seq<StoreCall>, state0: State, pin0: string, token0: string,
                                   userID0: string, err: Option<Error>)
      reads this, repo
    {
      && repo.calls == r0 + [SCreateUser(user.id, user.login)]
      && match repo.createUserReply
         case Err(e) => err == Some(e) && state == state0 && pin == pin0 && token == token0 && userID == userID0
         case Ok(u) => err == None && state == StateFor(u) && userID == user.id && token == user.token && pin == pin0
    }

    /** Logout. */
    method Logout() returns (err: Option<Error>)
      requires Valid()
      modifies this, repo`calls
      ensures Valid()
      ensures repo.calls == old(repo.calls) + [SClearUser(old(userID))]
      ensures err == repo.clearUserReply
      ensures err.Some? ==> state == old(state) && pin == old(pin) && token == old(token) && userID == old(userID)
      ensures err.None? ==> state == NoSession && pin == "" && token == "" && userID == ""
    {
      err := DestroySession();
    }

    /** GetRecords: the cached records, read only in an active session;
        otherwise the empty list and no call to the vault. */
    method GetRecords() returns (r: Result<seq<ClientRecord>>)
      modifies repo`calls
      ensures state != Active ==> r == Ok([]) && repo.calls == old(repo.calls)
      ensures state == Active ==> r == repo.recordsReply && repo.calls == old(repo.calls) + [SGetRecords(userID, pin)]
    {
      if state != Active {
        return Ok([]);
      }
      r := repo.GetRecords(userID, pin);
    }

    /** SyncRecords: pull the server's list and replace the cache. */
    method SyncRecords() returns (err: Option<Error>)
      modifies query`calls, repo`calls
      ensures Synced(old(query.calls), old(repo.calls), err)
    {
      if state != Active {
        return None;
      }
      var records := query.GetRecords(token);
      if records.Err? {
        return Some(records.error);
      }
      err := repo.UpdateRecords(userID, pin, records.value);
    }

    /** DeleteRecord: delete on the server, then sync. */
    method DeleteRecord(id: string) returns (err: Option<Error>)
      modifies query`calls, repo`calls
      ensures query.deleteReply.Some? ==>
        err == query.deleteReply && query.calls == old(query.calls) + [QDeleteRecord(token, id)]
        && repo.calls == old(repo.calls)
      ensures query.deleteReply.None? ==> Synced(old(query.calls) + [QDeleteRecord(token, id)], old(repo.calls), err)
    {
      err := query.DeleteRecord(token, id);
      if err.Some? {
        return;
      }
      err := SyncRecords();
    }

    /** UpdateRecord: update on the server, then sync. */
    method UpdateRecord(record: ServerRecord) returns (err: Option<Error>)
      modifies query`calls, repo`calls
      ensures query.updateReply.Some? ==>
        err == query.updateReply && query.calls == old(query.calls) + [QUpdateRecord(token, record)]
        && repo.calls == old(repo.calls)
      ensures query.updateReply.None? ==>
        Synced(old(query.calls) + [QUpdateRecord(token, record)], old(repo.calls), err)
    {
      err := query.UpdateRecord(token, record);
      if err.Some? {
        return;
      }
      err := SyncRecords();
    }

    /** AddRecord: files go through the upload call, every other type
        through the plain one; then sync. */
    method AddRecord(record: ServerRecord) returns (err: Option<Error>)
      modifies query`calls, repo`calls
      ensures var binary := record.dataType == RecordForm.BINARY;
        var call := if binary then QAddRecordFile(token, record) else QAddRecord(token, record);
        var reply := if binary then query.addFileReply else query.addReply;
        if reply.Some? then
          err == reply && query.calls == old(query.calls) + [call] && repo.calls == old(repo.calls)
        else
          Synced(old(query.calls) + [call], old(repo.calls), err)
    {
      if record.dataType == RecordForm.BINARY {
        err := query.AddRecordFile(token, record);
        if err.Some? {
          return;
        }
      } else {
        err := query.AddRecord(token, record);
        if err.Some? {
          return;
        }
      }
      err := SyncRecords();
    }

    /** SuspendSession: an active session is locked and forgets its PIN;
        in every other state nothing happens. */
    method SuspendSession() returns (err: Option<Error>)
      requires Valid()
      modifies this
      ensures Valid() && err == None
      ensures (state, pin, token, userID) == Suspend(old(state), old(pin), old(token), old(userID))
    {
      if state == Active {
        pin := "";
        state := Suspended;
      }
      return None;
    }

    /** CheckPin: unlock a resumed or active session with the PIN. */
    method CheckPin(p: string) returns (valid: bool, err: Option<Error>)
      requires Valid()
      modifies this, repo`calls
      ensures Valid()
      ensures old(state) != Suspended && old(state) != Active ==>
        valid == false && err == Some(SessionNotFound) && repo.calls == old(repo.calls) && Unchanged(old(state), old(pin), old(token), old(userID))
      ensures (old(state) == Suspended || old(state) == Active) && |old(userID)| == 0 ==>
        valid == false && err == Some(ProfileNotFound) && repo.calls == old(repo.calls) && Unchanged(old(state), old(pin), old(token), old(userID))
      ensures (old(state) == Suspended || old(state) == Active) && |old(userID)| > 0 ==>
        PinChecked(p, old(repo.calls), old(state), old(pin), old(token), old(userID), valid, err)
    {
      if state != Suspended && state != Active {
        return false, Some(SessionNotFound);
      }
      if |userID| == 0 {
        return false, Some(ProfileNotFound);
      }
      var checked := repo.CheckUserPin(userID, p);
      if checked.Err? {
        return false, Some(checked.error);
      }
      valid := checked.value.0;
      var vaultToken := checked.value.1;
      if valid {
        ActivateSession(p);
        if |vaultToken| == 0 && |token| > 0 {
          var e := repo.UpdateUserToken(userID, p, token);
          if e.Some? {
            return false, e;
          }
        } else {
          token := vaultToken;
        }
      }
      return valid, None;
    }

    ghost predicate Unchanged(state0: State, pin0: string, token0: string, userID0: string)
      reads this
    {
      state == state0 && pin == pin0 && token == token0 && userID == userID0
    }

    /** The outcome of CheckPin once the state and profile guards passed:
        the vault's verdict decides; a valid PIN activates the session, and
        when the vault holds no token but the session does, that token is
        sealed into the vault under the PIN (a failure of that write is
        reported although the session is already active). */
    ghost predicate PinChecked(p: string, r0: seq<StoreCall>, state0: State, pin0: string, token0: string,
                               userID0: string, valid: bool, err: Option<Error>)
      reads this, repo
    {
      match repo.checkPinReply
      case Err(e) =>
        valid == false && err == Some(e) && repo.calls == r0 + [SCheckUserPin(userID0, p)]
        && Unchanged(state0, pin0, token0, userID0)
      case Ok((false, _)) =>
        valid == false && err == None && repo.calls == r0 + [SCheckUserPin(userID0, p)]
        && Unchanged(state0, pin0, token0, userID0)
      case Ok((true, vaultToken)) =>
        && state == Active && pin == p && userID == userID0
        && if |vaultToken| == 0 && |token0| > 0 then
             && token == token0
             && repo.calls == r0 + [SCheckUserPin(userID0, p), SUpdateUserToken(userID0, p, token0)]
             && (if repo.updateTokenReply.Some? then valid == false && err == repo.updateTokenReply
                 else valid == true && err == None)
           else
             token == vaultToken && valid == true && err == None && repo.calls == r0 + [SCheckUserPin(userID0, p)]
    }

    /** SetPin: hash the PIN into the vault, seal the session token under
        it, and only when both succeed activate the session. */
    method SetPin(p: string) returns (err: Option<Error>)
      requires Valid()
      modifies this, repo`calls
      ensures Valid()
      ensures |old(userID)| == 0 ==>
        err == Some(ProfileNotFound) && repo.calls == old(repo.calls) && Unchanged(old(state), old(pin), old(token), old(userID))
      ensures |old(userID)| > 0 && repo.updatePinReply.Some? ==>
        err == repo.updatePinReply && repo.calls == old(repo.calls) + [SUpdateUserPin(old(userID), p)]
        && Unchanged(old(state), old(pin), old(token), old(userID))
      ensures |old(userID)| > 0 && repo.updatePinReply.None? ==>
        repo.calls == old(repo.calls) + [SUpdateUserPin(old(userID), p), SUpdateUserToken(old(userID), p, old(token))]
        && err == repo.updateTokenReply
        && (if err.Some? then Unchanged(old(state), old(pin), old(token), old(userID))
            else state == Active && pin == p && token == old(token) && userID == old(userID))
    {
      if |userID| == 0 {
        return Some(ProfileNotFound);
      }
      err := repo.UpdateUserPin(userID, p);
      if err.Some? {
        return;
      }
      err := repo.UpdateUserToken(userID, p, token);
      if err.Some? {
        return;
      }
      ActivateSession(p);
    }
  }

  /** SuspendSession on the four session fields. */
  function Suspend(state: State, pin: string, token: string, userID: string): (r: (State, string, string, string))
    ensures state == Active ==> r == (Suspended, "", token, userID)
    ensures state != Active ==> r == (state, pin, token, userID)
  {
    if state == Active then (Suspended, "", token, userID) else (state, pin, token, userID)
  }

  /** Suspending twice is suspending once. */
  lemma SuspendIdempotent(state: State, pin: string, token: string, userID: string)
    ensures var r := Suspend(state, pin, token, userID);
      Suspend(r.0, r.1, r.2, r.3) == r
  {
  }
}
