# keypass: a Dafny model of the password manager's decision logic

keypass is a client/server password manager. The client keeps a local vault holding one profile file (plain JSON) per user. A profile holds the user id and login, a bcrypt hash of the user's PIN, the server session token sealed under the PIN, and a cached copy of the user's records, also sealed under the PIN; only the token and the records are encrypted. A small session state machine unlocks the profile with the PIN and syncs the cache from the server. The server stores each record's payload sealed under one server-wide secret. It checks ownership before an update or a delete, and it authenticates users with bcrypt.

This project models that decision logic in Dafny and proves properties of it.

- **Cryptography.** The AES-GCM/SHA-256 codec (`Codec`) and bcrypt (`Kcrypt`) are symbolic.
  - The key and the nonce are functions of the passphrase alone: the nonce is the tail of the key hash, so every sealing under one passphrase reuses it. A symbolic blob stands for the ciphertext of any gob encoding of its value.
  - A blob opens only under the passphrase it was sealed with. Any other passphrase fails authentication.
  - A bcrypt hash is taken to check against exactly the password it was made from. This is a modelling assumption: real bcrypt reads only the first 72 bytes of a password (see "## Left out"). The salt bcrypt draws at random is a parameter; `None` stands for a hashing failure.
- **Client.**
  - The vault (`Vault.SecureRepo`) is a class over a directory, modelled as a map from user id to (modification time, profile). Every writing operation loads the profile, changes its field (the user id and login together for `CreateUser`) and writes the whole profile back. `GetRecords`, `CheckUserPin` and `LoadLastUser` only read; the first two can still create the seeded file of an unseen user.
  - The session logic (`ClientLogic.AppLogic`) is a class with the four session fields.
  - Its two collaborators, the remote query client and the vault interface, are classes with two parts:
    - reply fields holding whatever the next call of each kind answers (any value: every contract holds for every answer);
    - a ghost log of the calls made.
  - The pure converters between form values and record payloads (`ClientDto`) and the dropdown helper (`RecordForm`) are functions.
- **Server.**
  - The record crypter (`Datacrypt`) and the user use case (`UserUsecase`) are functions.
  - The records table (`RecordTable.Table`) and the record use case (`RecordUsecase.Usecase`) are classes.
  - The listen-address flag (`ServerConfig.ServerAddress`) is a class. Its pattern is a hand-written character scan, proved equal to the pattern's language.
- **Parameters for the outside world.**
  - The clock is the `now` parameter of every write.
  - The directory listing is a parameter of `LoadLastUser`.
  - The id the database hands out for a new record is a parameter of `Create`.
  - Disk and database failures are flags on the classes.

Notable behaviour of the code, which the model keeps:

- Saving a profile overwrites the file in place. It is not atomic, and a failed write can leave the file damaged.
- `SyncRecords` returns a fetch error to its caller; it does not swallow it.

## Model

| member | source | states |
|---|---|---|
| `Codec.DeriveKey` | internal/secure/encoder.go:43 | the AES key is determined by the passphrase alone |
| `Codec.DeriveKeyInjective` | internal/secure/decoder.go:64 | two passphrases give the same key exactly when they are equal: the modelling assumption that the hash is collision free, stated explicitly |
| `Codec.Seal` | internal/secure/encoder.go:22-65 | the blob is sealed under the key of the passphrase, and so under the nonce derived from it, which every sealing under that passphrase reuses |
| `Codec.Open` | internal/secure/decoder.go:32-85 | opening succeeds exactly when the passphrase's key is the sealing key; otherwise it is an authentication error |
| `Codec.RoundTrip` | internal/secure/secure_test.go:12-60 | decoding what was encoded under the same passphrase gives the value back |
| `Codec.WrongKeyRejected` | internal/secure/decoder.go:80-83 | a blob does not open under a different passphrase |
| `Kcrypt.Hash` | pkg/kcrypt/kcrypt.go:23-30 | hashing succeeds exactly when bcrypt can draw its salt, and fails with a hashing error otherwise |
| `Kcrypt.CheckHash` | pkg/kcrypt/kcrypt.go:32-40 | a hash checks against the password it was made from and, under the assumption that bcrypt is injective, against no other |
| `RecordForm.GetSelectedIndex` | pkg/client/component/record_form/record_form.go:28-44 | the index is always a valid position in the dropdown list. A known type selects its own position. Any other string, the empty one included, selects 0 |
| `RecordForm.SelectedIndexInverse` | pkg/client/component/record_form/record_form.go:24-44 | for each dropdown position, the index of that position's type is the position itself |
| `RecordForm.EmptyTypeSelectsFirst` | pkg/client/component/record_form/record_form.go:29-31 | a record without a type starts on the first option, CREDENTIALS; so `dataTypes[initialDataType]` at line 100 is in bounds |
| `ClientDto.ConvertToServerRecord` | internal/client/dto/dto.go:35-60 | id, meta and data type are copied. The payload keys are exactly the type's: login/password, number/cvv/expire, text, filePath/binary, and none for an unknown type. Each key holds the form's value for it: the strings as strings, the file content as bytes |
| `ClientDto.ConvertToString` | internal/client/dto/dto.go:70-80 | a string-valued key gives its string; a missing or non-string key gives "" |
| `ClientDto.ConvertToFormValues` | internal/client/dto/dto.go:63-101 | id, type and meta are copied. Each string field of the record's type is read from its key, "" when the key is missing or not a string. Fields of other types stay empty. The file path is never restored. The file content is restored only when the payload holds bytes under "binary" |
| `ClientDto.FormRoundTrip` | internal/client/dto/dto.go:43-57 | for CREDENTIALS, CREDIT and TEXT, form → server record → form restores every field of the record's type and blanks the rest |
| `ClientDto.BinaryRoundTrip` | internal/client/dto/dto.go:92-98 | for BINARY, the content survives the round trip and the file path comes back empty |
| `ClientDto.UnknownTypeRoundTrip` | internal/client/dto/dto.go:43-57 | an unknown type is sent with an empty payload and comes back with every typed field empty |
| `Vault.WithRecords` | internal/client/repository/repository.go:157-174 | the records are replaced by the sealing of exactly the given list, and nothing else changes. The same PIN reads that list back; every other PIN fails authentication |
| `Vault.Created` | internal/client/repository/repository.go:176-191 | only the user id and login are written; the PIN hash, token and records of an existing profile are kept |
| `Vault.Cleared` | internal/client/repository/repository.go:193-203 | only the cached token is erased |
| `Vault.WithPin` | internal/client/repository/repository.go:205-221 | only the PIN hash changes, to the given hash |
| `Vault.WithToken` | internal/client/repository/repository.go:223-239 | only the cached token changes, to the token sealed under the PIN, which that PIN opens |
| `Vault.SetPinThenCheck` | internal/client/repository/repository.go:286-312 | after a PIN is set and the token sealed under it, that PIN checks and returns the token, and any other PIN gives (false, ""), under the injectivity assumption of `Kcrypt.CheckHash` |
| `Vault.NoPinNoUnlock` | internal/client/repository/repository.go:294-297 | a profile with no PIN hash fails the check with "pin didn't set", whatever the PIN |
| `Vault.ClearedKeepsPin` | internal/client/repository/repository.go:193-203 | after logout the right PIN still checks, but no token comes back |
| `Vault.ReplaceNotMerge` | internal/client/repository/repository.go:157-174 | two record writes leave only the second list |
| `Vault.RepinLeavesRecordsSealed` | internal/client/repository/repository.go:205-221 | a new PIN does not open records sealed under the old one |
| `Vault.ScanPicksLatest` | internal/client/repository/repository.go:256-268 | the scan keeps the 1970 sentinel exactly when no listed file is newer than it. Otherwise it picks the file strictly newer than every earlier entry and at least as new as every later one, so on a tie the first in listing order wins. `os.ReadDir` lists entries sorted by file name, so that is the smallest file name |
| `Vault.LatestIsUnique` | internal/client/repository/repository.go:256-268 | at most one entry is the latest, so the choice is deterministic |
| `Vault.LastUserIsLatest` | internal/client/repository/repository.go:241-284 | a profile the vault resumes is the latest file in the listing and has a cached token |
| `Vault.SecureRepo.constructor` | internal/client/repository/repository.go:28-33 | the vault starts over an existing directory |
| `Vault.SecureRepo.GetUserState` | internal/client/repository/repository.go:55-83 | the stored profile is returned if there is one. Otherwise a file seeded with the user id is created first. An unreadable disk changes nothing |
| `Vault.SecureRepo.SaveUserState` | internal/client/repository/repository.go:85-97 | the whole profile is written to the user's file with the current time. A failed write is not atomic: other files are untouched, nothing is promised about this one |
| `Vault.SecureRepo.GetRecords` | internal/client/repository/repository.go:139-155 | with no records cached, the answer is the empty list, without decrypting. Otherwise it is the cached blob opened with the PIN |
| `Vault.SecureRepo.UpdateRecords` | internal/client/repository/repository.go:157-174 | the file now holds the loaded profile with its records replaced (`WithRecords`), stamped with the current time |
| `Vault.SecureRepo.CreateUser` | internal/client/repository/repository.go:176-191 | the file now holds `Created` of the loaded profile. The answer carries the existing PIN hash and no token |
| `Vault.SecureRepo.ClearUser` | internal/client/repository/repository.go:193-203 | the file now holds `Cleared` of the loaded profile |
| `Vault.SecureRepo.UpdateUserPin` | internal/client/repository/repository.go:205-221 | the file now holds `WithPin` of a hash of the PIN. A hashing failure writes nothing beyond the seeded file |
| `Vault.SecureRepo.UpdateUserToken` | internal/client/repository/repository.go:223-239 | the file now holds `WithToken` of the loaded profile |
| `Vault.SecureRepo.CheckUserPin` | internal/client/repository/repository.go:286-312 | the answer is `PinCheck` of the loaded profile: no PIN set is an error; a wrong PIN gives (false, ""); a right PIN gives (true, "") or the opened token |
| `Vault.SecureRepo.LoadLastUser` | internal/client/repository/repository.go:241-284 | the loop computes exactly `LastUser`. That is nothing for an empty listing or when no file is newer than the sentinel. Otherwise it is the latest profile, provided it has a user id and a cached token. An unreadable disk is an error |
| `ClientLogic.QueryClient.constructor` | internal/client/logic/logic.go:30-38 | a remote client with the given answers and no calls made yet |
| `ClientLogic.QueryClient.Login` | internal/client/logic/logic.go:31 | records the call and gives the login answer |
| `ClientLogic.QueryClient.Register` | internal/client/logic/logic.go:32 | records the call and gives the register answer |
| `ClientLogic.QueryClient.GetRecords` | internal/client/logic/logic.go:33 | records the call with its token and gives the listing answer |
| `ClientLogic.QueryClient.UpdateRecord` | internal/client/logic/logic.go:34 | records the call with token and record and gives the update answer |
| `ClientLogic.QueryClient.AddRecord` | internal/client/logic/logic.go:35 | records the call and gives the add answer |
| `ClientLogic.QueryClient.AddRecordFile` | internal/client/logic/logic.go:36 | records the call and gives the file-upload answer |
| `ClientLogic.QueryClient.DeleteRecord` | internal/client/logic/logic.go:37 | records the call with token and id and gives the delete answer |
| `ClientLogic.Store.constructor` | internal/client/logic/logic.go:40-50 | a vault interface with the given answers and no calls made yet |
| `ClientLogic.Store.GetRecords` | internal/client/logic/logic.go:41 | records the call with user and PIN and gives the records answer |
| `ClientLogic.Store.UpdateRecords` | internal/client/logic/logic.go:42 | records the call with user, PIN and list and gives the write answer |
| `ClientLogic.Store.CreateUser` | internal/client/logic/logic.go:44 | records the call and gives the profile answer |
| `ClientLogic.Store.ClearUser` | internal/client/logic/logic.go:45 | records the call and gives the clear answer |
| `ClientLogic.Store.LoadLastUser` | internal/client/logic/logic.go:46 | records the call and gives the last-profile answer |
| `ClientLogic.Store.UpdateUserPin` | internal/client/logic/logic.go:47 | records the call with user and PIN and gives the answer |
| `ClientLogic.Store.UpdateUserToken` | internal/client/logic/logic.go:48 | records the call with user, PIN and token and gives the answer |
| `ClientLogic.Store.CheckUserPin` | internal/client/logic/logic.go:49 | records the call with user and PIN and gives the (valid, token) answer |
| `ClientLogic.StateFor` | internal/client/logic/logic.go:79-83 | a profile without a PIN hash needs a PIN; one with a hash is suspended |
| `ClientLogic.AppLogic.constructor` | internal/client/logic/logic.go:53-59 | a fresh logic is in NoSession with empty user, PIN and token |
| `ClientLogic.AppLogic.DestroySession` | internal/client/logic/logic.go:61-70 | the vault's token for the current user is cleared. On success all four fields are reset and the state is NoSession; on error nothing changes |
| `ClientLogic.AppLogic.CreateSession` | internal/client/logic/logic.go:72-88 | the profile is registered in the vault. On success the state is NeedPin or Suspended by its PIN hash, the user id and token come from the remote user, and the PIN is kept; on error nothing changes |
| `ClientLogic.AppLogic.ActivateSession` | internal/client/logic/logic.go:90-93 | the state becomes Active with the given PIN, and user and token are kept |
| `ClientLogic.AppLogic.LoadUser` | internal/client/logic/logic.go:96-112 | no last profile gives NoSession. A profile gives NeedPin/Suspended by its PIN hash and sets the user id. The token and PIN are never touched, and an error changes nothing |
| `ClientLogic.AppLogic.Login` | internal/client/logic/logic.go:115-121 | a remote error propagates without touching the vault; otherwise the result is `CreateSession` of the remote user |
| `ClientLogic.AppLogic.Register` | internal/client/logic/logic.go:124-130 | as Login, through the remote registration |
| `ClientLogic.AppLogic.Logout` | internal/client/logic/logic.go:133-135 | as DestroySession |
| `ClientLogic.AppLogic.GetRecords` | internal/client/logic/logic.go:138-144 | unless the session is Active, the answer is the empty list with no vault call; when Active, it is the vault's records for (user, PIN) |
| `ClientLogic.AppLogic.SyncRecords` | internal/client/logic/logic.go:178-190 | unless Active, nothing is called. When Active, the records are fetched with the session token. A fetch error propagates without a vault write. Otherwise exactly the fetched list is written under (user, PIN) |
| `ClientLogic.AppLogic.DeleteRecord` | internal/client/logic/logic.go:147-152 | the remote delete with the session token; an error stops before any sync, success is followed by SyncRecords |
| `ClientLogic.AppLogic.UpdateRecord` | internal/client/logic/logic.go:155-160 | the remote update with the session token; an error stops before any sync, success is followed by SyncRecords |
| `ClientLogic.AppLogic.AddRecord` | internal/client/logic/logic.go:163-175 | BINARY records go through the file upload and every other type through the plain add; an error stops; success is followed by SyncRecords |
| `ClientLogic.AppLogic.SuspendSession` | internal/client/logic/logic.go:198-204 | Active becomes Suspended and only the PIN is cleared; in every other state nothing changes; no error |
| `ClientLogic.AppLogic.CheckPin` | internal/client/logic/logic.go:207-235 | see below |
| `ClientLogic.AppLogic.SetPin` | internal/client/logic/logic.go:238-253 | see below |
| `ClientLogic.Suspend` | internal/client/logic/logic.go:198-204 | on the four fields: Active goes to (Suspended, "", token, user) and every other state is left as it is |
| `ClientLogic.SuspendIdempotent` | internal/client/logic/logic.go:198-204 | suspending twice is the same as suspending once |
| `Datacrypt.TypeTag` | internal/server/domain/record/record.go:25-30 | each known record DTO has one of the four data-type names |
| `Datacrypt.Flatten` | internal/server/domain/record/datacrypt/datacrypt.go:32-48 | a known DTO flattens to exactly the keys the client sends for its type |
| `Datacrypt.FlattenInjective` | internal/server/domain/record/datacrypt/datacrypt.go:32-48 | for DTOs of the same type and meta, the flattened maps are equal exactly when the DTOs are, so no field is lost |
| `Datacrypt.New` | internal/server/domain/record/datacrypt/datacrypt.go:20-25 | the crypter holds the given secret |
| `Datacrypt.Encrypt` | internal/server/domain/record/datacrypt/datacrypt.go:28-60 | an unknown type fails with "undefined content type", and only then. A known one gives its meta in the clear and a blob that opens under the secret to the flattened fields and under no other secret |
| `Datacrypt.Decrypt` | internal/server/domain/record/datacrypt/datacrypt.go:63-77 | the stored payload opens exactly when it was sealed under the crypter's secret, and gives its contents |
| `Datacrypt.DecryptEncrypt` | internal/server/domain/record/datacrypt/datacrypt_test.go:73-84 | decrypting an encrypted DTO gives exactly its flattened fields |
| `Datacrypt.OtherSecretRejected` | internal/server/domain/record/datacrypt/datacrypt.go:55 | a server with another secret cannot read the payload |
| `Datacrypt.OneKeyForAll` | internal/server/domain/record/datacrypt/datacrypt.go:20-25 | every payload of one crypter is sealed under the same key, and so the same nonce, whatever the record; equal TEXT DTOs, whose payload is a one-entry map, give equal ciphertexts |
| `RecordTable.Lookup` | internal/server/domain/record/repository/repository.go:24-38 | a found row is in the table with that id; not found means no row has that id |
| `RecordTable.Without` | internal/server/domain/record/repository/repository.go:87-90 | no remaining row has the id, and every remaining row was in the table |
| `RecordTable.OwnedBy` | internal/server/domain/record/repository/repository.go:40-66 | every listed row belongs to the user and is in the table |
| `RecordTable.LookupWithout` | internal/server/domain/record/repository/repository.go:87-90 | after a delete the id is gone and every other id finds the same row as before |
| `RecordTable.WithoutKeepsDistinct` | internal/server/domain/record/repository/repository.go:87-90 | a delete keeps the ids distinct |
| `RecordTable.UpdatedKeepsDistinct` | internal/server/domain/record/repository/repository.go:82-85 | an update keeps the ids distinct |
| `RecordTable.UpdateThenLookup` | internal/server/domain/record/repository/repository.go:82-85 | after an update the row has the new payload, meta and time, and its version is one higher. Every other row is unchanged. An absent id leaves the table as it was |
| `RecordTable.OwnedByExactly` | internal/server/domain/record/repository/repository.go:40-66 | a row is in the user's listing exactly when it is in the table and belongs to the user |
| `RecordTable.Table.constructor` | internal/server/domain/record/repository/repository.go:20-22 | a table over existing rows with distinct ids |
| `RecordTable.Table.GetByID` | internal/server/domain/record/repository/repository.go:24-38 | the row with the id, or "not found"; a database error when the database is down |
| `RecordTable.Table.GetByUser` | internal/server/domain/record/repository/repository.go:40-66 | exactly the user's rows in table order, or a database error |
| `RecordTable.Table.Create` | internal/server/domain/record/repository/repository.go:68-80 | a new row of version 1 with the current time goes in front. An id in use is "already exist" and changes nothing. The flag is true exactly when there is no error |
| `RecordTable.Table.Update` | internal/server/domain/record/repository/repository.go:82-85 | the table becomes `Updated`; no error when no row matches |
| `RecordTable.Table.Delete` | internal/server/domain/record/repository/repository.go:87-90 | the table loses the row of the id; no error when no row matches |
| `RecordUsecase.ReadOf` | internal/server/domain/record/usecase/actions.go:70-77 | the read record copies id, meta, version, time and type, and carries the decrypted payload |
| `RecordUsecase.ReadAllOk` | internal/server/domain/record/usecase/actions.go:61-79 | the listing succeeds exactly when every row decrypts. It then has one entry per row, in the same order, each with the row's fields and decrypted payload |
| `RecordUsecase.ReadAllErr` | internal/server/domain/record/usecase/actions.go:64-68 | a failed listing fails with the decryption error of some row |
| `RecordUsecase.ReadAllPrefixErr` | internal/server/domain/record/usecase/actions.go:62-68 | once a row fails to decrypt, the rows after it do not matter |
| `RecordUsecase.ReadableLists` | internal/server/domain/record/datacrypt/datacrypt.go:20-25 | a table written only through one crypter lists every user without error |
| `RecordUsecase.Usecase.constructor` | internal/server/domain/record/usecase/actions.go:24-30 | the use case over a table and a crypter |
| `RecordUsecase.Usecase.Update` | internal/server/domain/record/usecase/actions.go:32-46 | see below |
| `RecordUsecase.Usecase.Create` | internal/server/domain/record/usecase/actions.go:48-54 | no ownership check. An unknown type is "undefined content type" and writes nothing. Otherwise the table's insert runs with the caller, the sealed payload, the type and the meta |
| `RecordUsecase.Usecase.GetByUser` | internal/server/domain/record/usecase/actions.go:56-80 | a fetch error propagates; otherwise the loop computes exactly `ReadAll` of the user's rows (see `ReadAllOk`, `ReadAllErr`) |
| `RecordUsecase.Usecase.Delete` | internal/server/domain/record/usecase/actions.go:82-92 | a lookup error propagates; a record of another user is "access denied" and is not deleted; the owner's record is removed |
| `UserUsecase.Login` | internal/server/domain/user/usecase/usecase.go:25-40 | a store error propagates. An unknown login is "user not found". A password that does not check is "bad pass". Otherwise the stored user is returned |
| `UserUsecase.Register` | internal/server/domain/user/usecase/usecase.go:42-52 | a hashing failure is returned. Otherwise the store's answer for the login and a hash that checks against the password |
| `UserUsecase.HashFailureSkipsStore` | internal/server/domain/user/usecase/usecase.go:43-48 | when hashing fails the store is never consulted: the answer is the same whatever AddUser would do |
| `UserUsecase.RegisterThenLogin` | internal/server/domain/user/usecase/usecase.go:25-52 | with a store that files the hash it was given, the registered user logs in with the same password, and any other password is "bad pass", under the injectivity assumption of `Kcrypt.CheckHash` |
| `ServerConfig.MatchesLanguage` | internal/server/config/config.go:22-26 | the character scan accepts exactly the language of the pattern: an optional run of [0-9A-Za-z.], then optionally ':' and one or more digits, up to the end of the text |
| `ServerConfig.ServerAddress.constructor` | internal/server/config/config.go:41-42 | the default address is ":8080" |
| `ServerConfig.ServerAddress.String` | internal/server/config/config.go:13-15 | the address as set |
| `ServerConfig.ServerAddress.Set` | internal/server/config/config.go:17-30 | the empty string is refused ("empty address not valid") and leaves the address unchanged. So is a value outside the language ("invalid address and port"). Any other value becomes the address |
| `ServerConfig.DefaultIsValid` | internal/server/config/config.go:42 | the default ":8080" is in the language |
| `ServerConfig.HostAndPortIsValid` | internal/server/config/config.go:22 | "localhost:8080" is in the language |
| `ServerConfig.EmptyPortIsInvalid` | internal/server/config/config.go:22 | ":" and "host:" are not in the language: a colon needs at least one digit |

Rows marked "see below":

- **`ClientLogic.AppLogic.CheckPin`** (logic.go:207-235) has these outcomes:
  - Outside Suspended/Active it fails with "session not found". With no current user it fails with "profile doesn't exist". In both cases nothing is called or changed.
  - Otherwise the vault checks the PIN:
    - a vault error or a wrong PIN gives false and changes nothing;
    - a right PIN makes the session Active with that PIN;
    - if the vault returned no token while the session holds one, that token is sealed into the vault under the PIN;
    - otherwise the session token becomes the vault's token.
  - A failure of that token write returns false with the error, although the session is already Active. This is what the source does.
- **`ClientLogic.AppLogic.SetPin`** (logic.go:238-253) has these outcomes:
  - With no current user it fails with "profile doesn't exist".
  - Otherwise it calls UpdateUserPin, then UpdateUserToken with the session token. It becomes Active with the PIN only when both succeed, and the first error stops it with nothing changed.
- **`RecordUsecase.Usecase.Update`** (actions.go:32-46) has these outcomes:
  - A lookup error propagates.
  - A record of another user is "access denied": nothing is encrypted or written.
  - An unknown type is "undefined content type" and writes nothing.
  - Otherwise the table's update runs with exactly the crypter's sealed payload and meta.

Three invariants hold across the classes:

- `Vault.SecureRepo.Valid`: every file holds the profile of the user it is named after. Every vault operation keeps it.
- `RecordTable.Table.Valid`: record ids are distinct, as the table's primary key guarantees. Every table operation keeps it; `Create`'s "already exist" branch is what keeps it on insert. It is what makes `GetByID`'s answer the one row of that id, so that an update or a delete after an ownership check touches exactly the checked record.
- `RecordUsecase.Readable`: every row is sealed under the crypter's secret. Create, Update and Delete keep it, and `ReadableLists` turns it into a listing that cannot fail.

## Left out

- Cryptography and serialisation.
  - AES-GCM, SHA-256, gob and bcrypt are symbolic (see above).
- `Codec.Seal`: a symbolic blob stands for every gob encoding of its value. gob writes a map's entries in Go's randomised iteration order, so in the source the ciphertext of a map with two or more keys varies between calls: the credentials, credit-card and binary payloads of `Datacrypt.Encrypt`, and the record list the vault seals (each record holds an `Info` map). The model does not distinguish those encodings, and claims equal ciphertexts for equal inputs only where the encoding is unique (`Datacrypt.OneKeyForAll`, TEXT payloads). The reuse of the key-derived nonce is modelled.
- `Kcrypt.CheckHash`: bcrypt is taken to be injective on whole passwords, although it ignores every byte past the 72nd. So `UserUsecase.RegisterThenLogin` ("any other password is bad pass") and `Vault.SetPinThenCheck` ("any other PIN gives (false, "")") do not hold in the source for passwords or PINs that agree on their first 72 bytes: `CompareHashAndPassword` (kcrypt.go:19, :38) accepts them. `Kcrypt.Hash` does not model the refusal of passwords longer than 72 bytes (`ErrPasswordTooLong`) that newer x/crypto releases of `GenerateFromPassword` make; the salt parameter's `None` covers that refusal only as an arbitrary hashing failure, not tied to the password's length.
  - The decoder's nil and pointer checks are not modelled, because a Dafny blob has a fixed plaintext type.
  - The hex and base64 wrappings and the JSON of vault files are not modelled.
  - bcrypt's cost parameter and its hex encoding are not modelled.
- `Datacrypt.Encrypt`: the encoder's own failure is not modelled, because the symbolic sealing of a field map cannot fail.
- `Vault.SecureRepo.UpdateRecords` and `Vault.SecureRepo.UpdateUserToken`: the error returns of `encryptRecords` and `encryptToken` (repository.go:165-170, 231-235) are not modelled, for the same reason: symbolic sealing of a record list or a token cannot fail.
- `Vault.SecureRepo`: file mechanics are not modelled.
  - Paths, `MkdirAll`, opening, truncation and seeking are not modelled.
  - `failing` stands for any failure to open a vault file or read the directory. `writeFails` stands for a failure of the final write-back.
  - A failed write is deliberately weak: only `Disturbed` is promised, because the source overwrites the file in place and is not atomic.
  - An unreadable profile file (corrupt JSON) is not modelled separately from `failing`.
  - `getUserState`'s not-exist branch (repository.go:72-74), which answers an empty `UserState{}` without a user id, is not modelled. `getFile` creates the file before opening it, so that branch is reached only when the file vanishes in between (a race with another process); `Load` always answers the seeded profile.
- `Vault.SecureRepo.LoadLastUser`: the directory listing is a parameter. `os.ReadDir` returns it sorted by file name, so on equal modification times the smallest file name wins; the model proves the first-in-listing-order rule for any listing and does not fix the sort.
  - Each entry is given as its name with the extension removed.
  - A listed name with no profile stands for an entry whose metadata could not be read, which the source skips.
  - Subdirectories and files that do not parse are not modelled.
  - Modification times are integers (nanoseconds).
- `ClientLogic.QueryClient` and `ClientLogic.Store`: the HTTP client (`internal/client/queries/queries.go`) and the vault behind the `SecureRepository` interface are answer tables. `AppLogic`'s contracts hold for every answer. The model does not connect `ClientLogic.Store` to `Vault.SecureRepo`; the vault's own contracts are proved separately.
- `GetSessionState` (logic.go:193-195) is a plain read of the `state` field and has no member of its own.
- `SaveBinaryFile` (logic.go:255-287) is not modelled: it works through the OS cache directory, the clock and file creation.
- The terminal UI is not modelled (`internal/client/app/app.go` and the other components under `pkg/client/component`). That covers its tickers and goroutines (concurrency) and its floating-point inactivity timer.
- HTTP handlers, routing, JWT, TLS, flag and environment parsing (`MustLoad`) and both `main` programs are not modelled.
- `ClientDto.ConvertToFormValues`: the payload values are exactly what the server record holds. After a JSON transport, bytes arrive as a base64 string, so the "binary" restoration applies only to payloads that still hold raw bytes.
- `RecordTable.Table`: SQL is modelled only as the use case sees it through `RecordRepo`, not as statements.
  - The table is a list of rows, most recently written first. It stands for `ORDER BY updated_at desc`, which gives the same order when the clock does not run backwards; ties in that order are not modelled.
  - The schema is not part of this model, so the id of a new row is a parameter, and "already exist" is the unique violation on it.
  - Every other database failure is the single `online` flag.
- `UserUsecase`: the user store is two functions: what GetUserByLogin answers for a login, and what AddUser answers for a (login, hash) pair. The SQL behind them is not part of this model, and neither is "login already exist".
- The record data-type names of the client dropdown are taken to be the same four strings as the server's `record.go:25-30`. Their client-side declaring file is not part of this model.
