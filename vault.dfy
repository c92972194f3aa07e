/** internal/client/repository: the local vault. One file per user holds
    that user's UserState (login, PIN hash, sealed token, sealed records);
    the file's modification time decides which profile was used last.

    The directory is a map from user id to (mtime, state). Every operation
    loads the state (creating the file, seeded with the user id, when it is
    missing), changes one field and writes the whole state back, stamping the
    file with the caller's clock `now`. The disk's failures are two flags:
    with `failing` no vault file can be opened, so every operation fails
    with IoError and writes nothing; with `writeFails` the final write-back
    fails with IoError, after which the user's file exists but its content
    is not promised. */
module Vault {
  import opened Errors
  import opened Wrappers
  import opened Codec
  import opened Kcrypt
  import opened Session
  import opened ClientDto

  /** time.Date(1970, 1, 1, 1, 1, 1, 1, time.UTC), in nanoseconds since the
      Unix epoch: only files modified strictly after it can be picked. */
  const Sentinel: int := 3661 * 1_000_000_000 + 1

  /** UserState as stored in a vault file; an empty string is `None`. */
  datatype UserState = UserState(
    userID: string,
    login: string,
    hashPin: Option<Digest>,
    hashToken: Option<Blob<string>>,
    records: Option<Blob<seq<ClientRecord>>>)

  datatype File = File(mtime: int, state: UserState)

  type Directory = map<string, File>

  /** What createFileIfNotExist writes: UserState{UserID: userID}. */
  function Seeded(userID: string): UserState {
    UserState(userID, "", None, None, None)
  }

  /** getUserState's answer: the stored state, or the seeded one. */
  function Load(dir: Directory, userID: string): UserState {
    if userID in dir then dir[userID].state else Seeded(userID)
  }

  /** The directory after getUserState: a missing file has been created. */
  function Materialise(dir: Directory, userID: string, now: int): Directory {
    if userID in dir then dir else dir[userID := File(now, Seeded(userID))]
  }

  /** Every file holds the state of the user it is named after. */
  ghost predicate WellFormed(dir: Directory) {
    forall id :: id in dir ==> dir[id].state.userID == id
  }

  // ---------------------------------------------------------------------
  // Each operation on the loaded state.

  /** GetRecords: no records cached reads as the empty list without
      decrypting; otherwise the cached blob is opened with the PIN. */
  function RecordsOf(st: UserState, pin: string): Result<seq<ClientRecord>> {
    match st.records
    case None => Ok([])
    case Some(b) => Open(b, pin)
  }

  /** UpdateRecords: the cached list is replaced by the sealing of exactly
      `records`; nothing else changes. Reading back with the same PIN gives
      that list, with any other PIN an authentication failure. */
  function WithRecords(st: UserState, pin: string, records: seq<ClientRecord>): (r: UserState)
    ensures r.userID == st.userID && r.login == st.login
    ensures r.hashPin == st.hashPin && r.hashToken == st.hashToken
    ensures RecordsOf(r, pin) == Ok(records)
    ensures forall q :: q != pin ==> RecordsOf(r, q) == Err(CryptoError)
  {
    st.(records := Some(Seal(records, pin)))
  }

  /** CreateUser: only the identity is (re)written; PIN hash, token and
      records of an existing profile are kept. */
  function Created(st: UserState, userID: string, login: string): (r: UserState)
    ensures r.userID == userID && r.login == login
    ensures r.hashPin == st.hashPin && r.hashToken == st.hashToken && r.records == st.records
  {
    st.(userID := userID, login := login)
  }

  /** ClearUser: only the cached token is erased. */
  function Cleared(st: UserState): (r: UserState)
    ensures r.hashToken.None?
    ensures r.userID == st.userID && r.login == st.login
    ensures r.hashPin == st.hashPin && r.records == st.records
  {
    st.(hashToken := None)
  }

  /** UpdateUserPin: only the PIN hash changes. */
  function WithPin(st: UserState, d: Digest): (r: UserState)
    ensures r.hashPin == Some(d)
    ensures r.userID == st.userID && r.login == st.login
    ensures r.hashToken == st.hashToken && r.records == st.records
  {
    st.(hashPin := Some(d))
  }

  /** UpdateUserToken: only the cached token changes, to the token sealed
      under the PIN. */
  function WithToken(st: UserState, pin: string, token: string): (r: UserState)
    ensures r.hashToken.Some? && Open(r.hashToken.value, pin) == Ok(token)
    ensures r.userID == st.userID && r.login == st.login
    ensures r.hashPin == st.hashPin && r.records == st.records
  {
    st.(hashToken := Some(Seal(token, pin)))
  }

  /** CheckUserPin: (valid, token). No PIN set is an error; a wrong PIN is
      (false, ""); a right PIN with no cached token is (true, ""); a right PIN
      with a cached token opens it. */
  function PinCheck(st: UserState, pin: string): Result<(bool, string)> {
    match st.hashPin
    case None => Err(PinNotSet)
    case Some(d) =>
      if !Check(pin, d) then Ok((false, ""))
      else match st.hashToken
        case None => Ok((true, ""))
        case Some(t) =>
          match Open(t, pin)
          case Err(e) => Err(e)
          case Ok(token) => Ok((true, token))
  }

  /** After setting a PIN and sealing a token under it, the same PIN checks
      and returns the token, and any other PIN is rejected without error. */
  lemma SetPinThenCheck(st: UserState, pin: string, other: string, salt: Salt, token: string)
    requires other != pin
    ensures Hash(pin, Some(salt)).Ok?
    ensures var locked := WithToken(WithPin(st, Hash(pin, Some(salt)).value), pin, token);
      PinCheck(locked, pin) == Ok((true, token)) && PinCheck(locked, other) == Ok((false, ""))
  {
    CheckHash(pin, other, salt);
  }

  /** A profile without a PIN hash cannot be unlocked with any PIN. */
  lemma NoPinNoUnlock(st: UserState, pin: string)
    requires st.hashPin.None?
    ensures PinCheck(st, pin) == Err(PinNotSet)
  {
  }

  /** Logging out keeps the PIN: the right PIN still checks, but no token
      comes back. */
  lemma ClearedKeepsPin(st: UserState, pin: string)
    requires st.hashPin.Some? && Check(pin, st.hashPin.value)
    ensures PinCheck(Cleared(st), pin) == Ok((true, ""))
  {
  }

  /** Sync is a full replace, not a merge: after two writes only the second
      list is read back. */
  lemma ReplaceNotMerge(st: UserState, pin: string, first: seq<ClientRecord>, second: seq<ClientRecord>)
    ensures RecordsOf(WithRecords(WithRecords(st, pin, first), pin, second), pin) == Ok(second)
  {
  }

  /** Records sealed under one PIN do not open under a new PIN: changing the
      PIN leaves the cached records unreadable until the next sync. */
  lemma RepinLeavesRecordsSealed(st: UserState, oldPin: string, newPin: string, records: seq<ClientRecord>, d: Digest)
    requires oldPin != newPin
    ensures RecordsOf(WithPin(WithRecords(st, oldPin, records), d), newPin) == Err(CryptoError)
  {
  }

  // ---------------------------------------------------------------------
  // LoadLastUser's choice of profile.

  /** The best candidate so far: its mtime and user id. */
  datatype Pick = Pick(time: int, name: string)

  /** The scan of LoadLastUser over the listing, in listing order: keep the
      first entry whose mtime is strictly later than every earlier one (and
      than the sentinel). A listed name that is not in the directory is an
      entry whose metadata could not be read, and is skipped. */
  function Scan(dir: Directory, names: seq<string>): Pick
    decreases |names|
  {
    if names == [] then Pick(Sentinel, "")
    else
      var p := Scan(dir, names[..|names| - 1]);
      var n := names[|names| - 1];
      if n in dir && dir[n].mtime > p.time then Pick(dir[n].mtime, n) else p
  }

  /** No listed file is newer than the sentinel. */
  ghost predicate NoneNewer(dir: Directory, names: seq<string>) {
    forall j :: 0 <= j < |names| && names[j] in dir ==> dir[names[j]].mtime <= Sentinel
  }

  /** Entry i is the latest file: newer than the sentinel, strictly newer
      than every earlier entry, at least as new as every later one. */
  ghost predicate LatestAt(dir: Directory, names: seq<string>, i: int) {
    && 0 <= i < |names| && names[i] in dir
    && dir[names[i]].mtime > Sentinel
    && (forall j :: 0 <= j < i && names[j] in dir ==> dir[names[j]].mtime < dir[names[i]].mtime)
    && (forall j :: i < j < |names| && names[j] in dir ==> dir[names[j]].mtime <= dir[names[i]].mtime)
  }

  /** The scan keeps the sentinel exactly when no file is newer, and
      otherwise picks the latest file, the first one on ties. */
  lemma {:induction false} ScanPicksLatest(dir: Directory, names: seq<string>)
    ensures Scan(dir, names) == Pick(Sentinel, "") <==> NoneNewer(dir, names)
    ensures !NoneNewer(dir, names) ==>
      exists i :: LatestAt(dir, names, i) && Scan(dir, names) == Pick(dir[names[i]].mtime, names[i])
    decreases |names|
  {
    if names != [] {
      var init := names[..|names| - 1];
      var n := names[|names| - 1];
      ScanPicksLatest(dir, init);
      assert forall j :: 0 <= j < |init| ==> init[j] == names[j];
      var p := Scan(dir, init);
      if NoneNewer(dir, init) {
        if n in dir && dir[n].mtime > Sentinel {
          assert LatestAt(dir, names, |names| - 1);
        }
      } else {
        var i :| LatestAt(dir, init, i) && p == Pick(dir[init[i]].mtime, init[i]);
        if n in dir && dir[n].mtime > p.time {
          assert LatestAt(dir, names, |names| - 1);
        } else {
          assert LatestAt(dir, names, i);
        }
      }
    }
  }

  /** At most one entry is the latest: ties are broken deterministically. */
  lemma LatestIsUnique(dir: Directory, names: seq<string>, i: int, k: int)
    requires LatestAt(dir, names, i) && LatestAt(dir, names, k)
    ensures i == k
  {
  }

  /** LoadLastUser's answer for a listing: nothing for an empty directory or
      when no file is newer than the sentinel; otherwise the latest profile,
      but only if it has a user id and a cached token. */
  function LastUser(dir: Directory, names: seq<string>): Option<UserInfo> {
    if |names| == 0 then None
    else
      var p := Scan(dir, names);
      if |p.name| == 0 then None
      else
        var st := Load(dir, p.name);
        if |st.userID| > 0 && st.hashToken.Some? then Some(UserInfo(st.userID, st.hashPin, st.hashToken))
        else None
  }

  /** A resumable profile is the latest one in the listing. */
  lemma {:induction false} LastUserIsLatest(dir: Directory, names: seq<string>)
    requires WellFormed(dir)
    ensures LastUser(dir, names).Some? ==>
      exists i :: LatestAt(dir, names, i) && names[i] == LastUser(dir, names).value.id
        && dir[names[i]].state.hashToken.Some?
  {
    if LastUser(dir, names).Some? {
      ScanPicksLatest(dir, names);
    }
  }

  // ---------------------------------------------------------------------

  /** The directory after a write that failed part-way: the user's file
      exists, nothing is promised about its content (the source overwrites
      the file in place, so a failed write is not atomic), and every other
      file is untouched. */
  ghost predicate Disturbed(before: Directory, after: Directory, userID: string) {
    && after.Keys == before.Keys + {userID}
    && (forall k :: k in before && k != userID ==> after[k] == before[k])
  }

  class SecureRepo {
    var files: Directory
    /** Opening a vault file fails (getFile): every operation fails. */
    var failing: bool
    /** Writing a vault file back fails (the encoder's write in
        saveUserState). */
    var writeFails: bool

    ghost predicate Valid()
      reads this
    {
      WellFormed(files)
    }

    /** New: a vault over a directory already holding `existing`. */
    constructor (existing: Directory, openFails: bool, saveFails: bool)
      requires WellFormed(existing)
      ensures Valid() && files == existing && failing == openFails && writeFails == saveFails
    {
      files := existing;
      failing := openFails;
      writeFails := saveFails;
    }

    method GetUserState(userID: string, now: int) returns (r: Result<UserState>)
      requires Valid()
      modifies this`files
      ensures Valid()
      ensures failing ==> r == Err(IoError) && files == old(files)
      ensures !failing ==> r == Ok(Load(old(files), userID)) && files == Materialise(old(files), userID, now)
      ensures r.Ok? ==> r.value.userID == userID
    {
      if failing {
        return Err(IoError);
      }
      if userID !in files {
        files := files[userID := File(now, Seeded(userID))];
      }
      return Ok(files[userID].state);
    }

    /** saveUserState: a whole-record overwrite of the user's file. */
    method SaveUserState(st: UserState, now: int) returns (err: Option<Error>)
      requires Valid()
      modifies this`files
      ensures Valid()
      ensures failing ==> err == Some(IoError) && files == old(files)
      ensures !failing && writeFails ==> err == Some(IoError) && Disturbed(old(files), files, st.userID)
      ensures !failing && !writeFails ==> err == None && files == old(files)[st.userID := File(now, st)]
    {
      if failing {
        return Some(IoError);
      }
      if writeFails {
        // The model keeps (or creates) the file with its old content; the
        // contract promises no more than Disturbed.
        if st.userID !in files {
          files := files[st.userID := File(now, Seeded(st.userID))];
        }
        return Some(IoError);
      }
      files := files[st.userID := File(now, st)];
      return None;
    }

    method GetRecords(userID: string, pin: string, now: int) returns (r: Result<seq<ClientRecord>>)
      requires Valid()
      modifies this`files
      ensures Valid()
      ensures failing ==> r == Err(IoError) && files == old(files)
      ensures !failing ==> (files == Materialise(old(files), userID, now)
                            && r == RecordsOf(Load(old(files), userID), pin))
    {
      var st := GetUserState(userID, now);
      if st.Err? {
        return Err(st.error);
      }
      if st.value.records.None? {
        return Ok([]);
      }
      r := Open(st.value.records.value, pin);
    }

    method UpdateRecords(userID: string, pin: string, records: seq<ClientRecord>, now: int) returns (err: Option<Error>)
      requires Valid()
      modifies this`files
      ensures Valid()
      ensures failing ==> err == Some(IoError) && files == old(files)
      ensures !failing && writeFails ==> err == Some(IoError) && Disturbed(old(files), files, userID)
      ensures !failing && !writeFails ==>
        (err == None
         && files == old(files)[userID := File(now, WithRecords(Load(old(files), userID), pin, records))])
    {
      var st := GetUserState(userID, now);
      if st.Err? {
        return Some(st.error);
      }
      var state := st.value.(records := Some(Seal(records, pin)));
      err := SaveUserState(state, now);
    }

    method CreateUser(userID: string, login: string, now: int) returns (r: Result<UserInfo>)
      requires Valid()
      modifies this`files
      ensures Valid()
      ensures failing ==> r == Err(IoError) && files == old(files)
      ensures !failing && writeFails ==> r == Err(IoError) && Disturbed(old(files), files, userID)
      ensures !failing && !writeFails ==>
        (r == Ok(UserInfo(userID, Load(old(files), userID).hashPin, None))
         && files == old(files)[userID := File(now, Created(Load(old(files), userID), userID, login))])
    {
      var st := GetUserState(userID, now);
      if st.Err? {
        return Err(st.error);
      }
      var state := st.value.(userID := userID, login := login);
      var err := SaveUserState(state, now);
      if err.Some? {
        return Err(err.value);
      }
      return Ok(UserInfo(state.userID, state.hashPin, None));
    }

    method ClearUser(userID: string, now: int) returns (err: Option<Error>)
      requires Valid()
      modifies this`files
      ensures Valid()
      ensures failing ==> err == Some(IoError) && files == old(files)
      ensures !failing && writeFails ==> err == Some(IoError) && Disturbed(old(files), files, userID)
      ensures !failing && !writeFails ==>
        (err == None && files == old(files)[userID := File(now, Cleared(Load(old(files), userID)))])
    {
      var st := GetUserState(userID, now);
      if st.Err? {
        return Some(st.error);
      }
      err := SaveUserState(st.value.(hashToken := None), now);
    }

    /** UpdateUserPin; `salt` is bcrypt's random draw. */
    method UpdateUserPin(userID: string, pin: string, salt: Option<Salt>, now: int) returns (err: Option<Error>)
      requires Valid()
      modifies this`files
      ensures Valid()
      ensures failing ==> err == Some(IoError) && files == old(files)
      ensures !failing && salt.None? ==> err == Some(HashFailure) && files == Materialise(old(files), userID, now)
      ensures !failing && salt.Some? && writeFails ==> err == Some(IoError) && Disturbed(old(files), files, userID)
      ensures !failing && salt.Some? && !writeFails ==>
        (err == None
         && files == old(files)[userID := File(now, WithPin(Load(old(files), userID), Hash(pin, salt).value))])
    {
      var st := GetUserState(userID, now);
      if st.Err? {
        return Some(st.error);
      }
      var hashPin := Hash(pin, salt);
      if hashPin.Err? {
        return Some(hashPin.error);
      }
      err := SaveUserState(st.value.(hashPin := Some(hashPin.value)), now);
    }

    method UpdateUserToken(userID: string, pin: string, token: string, now: int) returns (err: Option<Error>)
      requires Valid()
      modifies this`files
      ensures Valid()
      ensures failing ==> err == Some(IoError) && files == old(files)
      ensures !failing && writeFails ==> err == Some(IoError) && Disturbed(old(files), files, userID)
      ensures !failing && !writeFails ==>
        (err == None
         && files == old(files)[userID := File(now, WithToken(Load(old(files), userID), pin, token))])
    {
      var st := GetUserState(userID, now);
      if st.Err? {
        return Some(st.error);
      }
      err := SaveUserState(st.value.(hashToken := Some(Seal(token, pin))), now);
    }

    method CheckUserPin(userID: string, pin: string, now: int) returns (r: Result<(bool, string)>)
      requires Valid()
      modifies this`files
      ensures Valid()
      ensures failing ==> r == Err(IoError) && files == old(files)
      ensures !failing ==> (files == Materialise(old(files), userID, now)
                            && r == PinCheck(Load(old(files), userID), pin))
    {
      var st := GetUserState(userID, now);
      if st.Err? {
        return Err(st.error);
      }
      var state := st.value;
      if state.hashPin.None? {
        return Err(PinNotSet);
      }
      if !Check(pin, state.hashPin.value) {
        return Ok((false, ""));
      }
      var token := "";
      if state.hashToken.Some? {
        var decrypted := Open(state.hashToken.value, pin);
        if decrypted.Err? {
          return Err(decrypted.error);
        }
        token := decrypted.value;
      }
      return Ok((true, token));
    }

    /** LoadLastUser over the directory listing `listing` (entry names with
        their extension removed, in the order the directory read gives). */
    method LoadLastUser(listing: seq<string>) returns (r: Result<Option<UserInfo>>)
      requires Valid()
      ensures failing ==> r == Err(IoError)
      ensures !failing ==> r == Ok(LastUser(files, listing))
    {
      if failing {
        return Err(IoError);
      }
      if |listing| == 0 {
        return Ok(None);
      }
      var lastUpdated := Sentinel;
      var userID := "";
      for i := 0 to |listing|
        invariant Pick(lastUpdated, userID) == Scan(files, listing[..i])
        invariant userID == "" || userID in files
      {
        var name := listing[i];
        if name in files {
          var info := files[name];
          if info.mtime > lastUpdated {
            lastUpdated := info.mtime;
            userID := name;
          }
        }
        assert listing[..i + 1][..i] == listing[..i];
      }
      assert listing[..|listing|] == listing;
      if |userID| == 0 {
        return Ok(None);
      }
      var state := files[userID].state;
      if |state.userID| > 0 && state.hashToken.Some? {
        return Ok(Some(UserInfo(state.userID, state.hashPin, state.hashToken)));
      }
      return Ok(None);
    }
  }
}
