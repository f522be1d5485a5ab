# Daemon registry and login lockout, modelled in Dafny

This project models three pieces of the NetVisor control-plane backend.

- **The daemon record store** (`DaemonStorage`). This is the `daemons` table behind the `DaemonStorage` contract, as the Postgres implementation uses it. The table is a `map` from daemon id to row, held by the class `PostgresDaemonStorage`. Each SQL statement is a method of that class: `Create`, `GetById`, `GetByHostId`, `GetByApiKey`, `GetAll`, `Update` and `Delete`. `RowToDaemon` decodes a row.
- **The daemon service** (`DaemonServices`). The class `DaemonService` puts register, read-through, update, delete and heartbeat on top of the store. The two outbound calls to a daemon become pure functions of the HTTP response. `DiscoveryOutcome` models the discovery request and `CancellationOutcome` the cancellation.
- **Login lockout and registration** (`Auth`). The class `AuthService` holds the `login_attempts` map from name to (failure count, time of last failure). Its `Login` and `CleanupOldLoginAttempts` change that map in place. `TryLogin`, `GetUserByName` and `Register` are pure searches over the user list.

Wall-clock time is an explicit `now` argument, in whole seconds. The user list is an argument. So are the result of request validation and the result of hashing a password.

Some things are abstract. The JSON text codec for IP addresses is a pair of total functions, `IpCodec`. Case folding (`lower`) and argon2 password verification (`verify`) are constant function fields of `AuthService`. A property that needs the address codec to round-trip takes `RoundTrips(codec)` as a hypothesis.

Where the documented behaviour of the storage and service contracts and the code disagree, the model follows the code:

- `update` on an id the table does not hold changes nothing and still returns the daemon it was given. It is not a not-found error. The same goes for a heartbeat from an unregistered daemon.
- `register_daemon` returns the daemon exactly as the caller passed it. The stored row carries the creation time in `last_seen` and `registered_at` instead of the caller's values.
- The service's `get_daemon_by_api_key_hash` calls a storage method `get_by_api_key_hash` that the storage trait does not declare. The model resolves it to the trait's `get_by_api_key`, which matches the stored key exactly.
- A discovery request rejected at the HTTP level reports the status but not the daemon id. Only the rejection reported in the envelope names the daemon. A cancellation that fails at the HTTP level names the daemon.

The table's unique constraints live in the database schema, which this model does not cover. The model assumes constraints on `id` (the key), `host_id` and `api_key`. An INSERT that would repeat one of them fails with `Conflict`. So does an UPDATE that would give a row another row's `host_id`. The class invariant `Valid()` keeps all three unique, so the lookups by `host_id` and `api_key` find at most one row.

## Model

| member | source | states |
|---|---|---|
| `DaemonStorage.RowToDaemon` | backend/src/server/daemons/storage.rs:143-159 | Decoding fails exactly when the ip column does not decode (`IpDecodeFailed`, checked first) or the port column is outside 16 bits (`PortOutOfRange`, the `unwrap` panic). Otherwise every field comes from its column and the address is the decoded one. |
| `DaemonStorage.ToRow` | backend/src/server/daemons/storage.rs:34-53 | The row bound by the INSERT sits under the daemon's id and has a 16-bit port. With a round-tripping ip codec it decodes back to the same daemon. |
| `DaemonStorage.ApplyUpdate` | backend/src/server/daemons/storage.rs:112-128 | With a round-tripping codec, an updated row reads back as the argument daemon. The exceptions are `registered_at`, `network_id` and `api_key`, which keep their stored values. |
| `DaemonStorage.SelectNewestFirst` | backend/src/server/daemons/storage.rs:95-97 | The query returns exactly the rows whose `network_id` is in the given list. Each row appears once, ordered by `registered_at` descending. |
| `DaemonStorage.PostgresDaemonStorage.Create` | backend/src/server/daemons/storage.rs:33-56 | Fails with `Conflict`, leaving the table unchanged, exactly when the id, `host_id` or `api_key` is already present. Otherwise the table gains exactly the daemon's row, with both timestamps equal to `now`. The invariant is kept. |
| `DaemonStorage.PostgresDaemonStorage.GetById` | backend/src/server/daemons/storage.rs:58-68 | A miss is `Ok(None)`, never an error. A hit is that row decoded, or the row's decoding error. |
| `DaemonStorage.PostgresDaemonStorage.GetByHostId` | backend/src/server/daemons/storage.rs:82-92 | A miss on `host_id` is `Ok(None)`. Otherwise the result is the one matching row decoded, or its decoding error. |
| `DaemonStorage.PostgresDaemonStorage.GetByApiKey` | backend/src/server/daemons/storage.rs:70-80 | A miss on the exact `api_key` is `Ok(None)`. Otherwise the result is the one matching row decoded, or its decoding error. |
| `DaemonStorage.PostgresDaemonStorage.GetAll` | backend/src/server/daemons/storage.rs:94-110 | Succeeds exactly when every matching row decodes, and then returns exactly the daemons whose `network_id` is listed, each once, newest-registered first. Otherwise it returns the error of a matching row. |
| `DaemonStorage.PostgresDaemonStorage.Update` | backend/src/server/daemons/storage.rs:112-131 | Fails with `Conflict` only when the row exists and another row holds the new `host_id`. Otherwise it returns the input daemon and rewrites that row as the UPDATE does. A missing id changes nothing. |
| `DaemonStorage.PostgresDaemonStorage.Delete` | backend/src/server/daemons/storage.rs:133-140 | The table loses the row of that id, if it has one, and nothing else. |
| `DaemonStorage.CreatedReadsBack` | backend/src/server/daemons/storage.rs:36-53 | With a round-tripping codec, a created row reads back as the daemon with `last_seen` and `registered_at` equal to the creation time. Every other row stays. |
| `DaemonStorage.UpdateRewritesOnlyMutableColumns` | backend/src/server/daemons/storage.rs:115-128 | Only `host_id`, `ip`, `port` and `last_seen` of the daemon's row change. `network_id`, `api_key`, `registered_at`, the key set and all other rows stay. The row reads back with the new address. |
| `DaemonStorage.UpdateOfMissingIdIsNoOp` | backend/src/server/daemons/storage.rs:112-131 | An update of an absent id conflicts with nothing and leaves the table unchanged. |
| `DaemonStorage.DeleteIsIdempotent` | backend/src/server/daemons/storage.rs:133-140 | Deleting twice is deleting once. Deleting an absent id changes nothing. |
| `DaemonStorage.StoredRowFailsOnlyOnIp` | backend/src/server/daemons/storage.rs:143-158 | A stored row fails to decode exactly when its ip column does not decode. With a round-tripping codec it always decodes. |
| `DaemonServices.DaemonService.RegisterDaemon` | backend/src/server/daemons/service.rs:33-36 | Returns exactly the given daemon when `create` succeeds, and `create`'s error otherwise. The table changes as `create` changes it. |
| `DaemonServices.DaemonService.GetDaemon` | backend/src/server/daemons/service.rs:39-41 | The result is the store's lookup by id. |
| `DaemonServices.DaemonService.GetHostDaemon` | backend/src/server/daemons/service.rs:44-46 | The result is the store's lookup by `host_id`. |
| `DaemonServices.DaemonService.GetDaemonByApiKeyHash` | backend/src/server/daemons/service.rs:49-51 | The result is the store's exact-match lookup by `api_key`. |
| `DaemonServices.DaemonService.GetAllDaemons` | backend/src/server/daemons/service.rs:54-56 | The result is the store's listing for the given network ids. |
| `DaemonServices.DaemonService.UpdateDaemon` | backend/src/server/daemons/service.rs:59-62 | The store's update, with the same result and new table and no extra change to the daemon. |
| `DaemonServices.DaemonService.ReceiveHeartbeat` | backend/src/server/daemons/service.rs:65-69 | Persists the daemon with `last_seen = now` and every other field as passed, through the store's update. On success it returns that daemon. |
| `DaemonServices.DaemonService.DeleteDaemon` | backend/src/server/daemons/service.rs:72-74 | The store's delete. |
| `DaemonServices.AfterHeartbeat` | backend/src/server/daemons/service.rs:65-69 | A heartbeat keeps the key set and all other rows. A stored daemon that does not conflict gets `last_seen` equal to the heartbeat's time. |
| `DaemonServices.LastSeenWithinBeats` | backend/src/server/daemons/service.rs:65-69 | After in-order heartbeats, a stored `last_seen` lies between its starting value and the latest heartbeat's time. |
| `DaemonServices.HeartbeatsNeverDecreaseLastSeen` | backend/src/server/daemons/service.rs:65-69 | If heartbeat times never decrease and start no earlier than the stored value, the stored `last_seen` never decreases from one heartbeat to the next. |
| `DaemonServices.DiscoveryOutcome` | backend/src/server/daemons/service.rs:96-118 | Succeeds exactly when a response arrived, its status is 2xx, the envelope parses and its `success` flag is true. No response is a transport failure. A non-2xx status fails with that status. A body that does not parse is a malformed envelope. A false flag fails with an error naming the daemon id and the envelope's error, or "Unknown error". |
| `DaemonServices.CancellationOutcome` | backend/src/server/daemons/service.rs:133-148 | Succeeds exactly when a response arrived with a 2xx status. A non-2xx failure names the daemon id and the status. |
| `DaemonServices.CancellationIgnoresEnvelope` | backend/src/server/daemons/service.rs:140-148 | The cancellation outcome does not depend on the envelope. A 2xx response with a false flag cancels successfully but fails a discovery request. |
| `DaemonServices.EndpointsDifferOnlyInPath` | backend/src/server/daemons/service.rs:82-131 | Both calls use HTTP to the daemon's own ip and port, and the two endpoints differ (`/api/discovery/initiate` and `/api/discovery/cancel`). |
| `Auth.CheckLoginLockout` | backend/src/server/auth/service.rs:123-138 | Rejects exactly when the name has an entry with count ≥ 5 and less than 900 s have elapsed. The reported wait is 1 to 16 minutes, never shorter than the lockout still to run and at most a minute longer. |
| `Auth.AfterLogin` | backend/src/server/auth/service.rs:102-118 | Success removes the name's entry. Failure sets it to the old count (or 0) plus 1 at `now`. Entries for other names are unchanged. |
| `Auth.Retained` | backend/src/server/auth/service.rs:172-180 | Cleanup keeps exactly the entries whose last failure was less than 900 s ago, with their values. |
| `Auth.FirstNamed` | backend/src/server/auth/service.rs:144-147 | Finds the first user whose username equals the name case-insensitively. The search misses exactly when no user matches. |
| `Auth.FirstNamedDependsOnFoldedName` | backend/src/server/auth/service.rs:144-147 | Two names with the same case folding find the same user. |
| `Auth.FirstPasswordless` | backend/src/server/auth/service.rs:55-58 | Finds the first user without a password hash. The search misses exactly when every user has one. |
| `Auth.RegisteredNamed` | backend/src/server/auth/service.rs:45-48 | True exactly when some user with a password hash has the username case-insensitively. |
| `Auth.AuthService.TryLogin` | backend/src/server/auth/service.rs:141-160 | Only the first case-insensitive match is checked. Succeeds with that user exactly when it has a hash and the password verifies. An unknown name and a wrong password both fail with "Invalid username or password", so the two cannot be told apart. A match without a password fails with "no password set", and a hash that does not parse fails with "Invalid password hash". |
| `Auth.AuthService.GetUserByName` | backend/src/server/auth/service.rs:163-169 | Returns the first case-insensitive match, and `None` exactly when there is none. |
| `Auth.AuthService.Register` | backend/src/server/auth/service.rs:35-83 | An invalid request fails validation. It fails as taken exactly when a user with a password hash has the username case-insensitively. Otherwise it fails exactly when hashing fails, and succeeds when hashing succeeds. On success it claims the first passwordless user, setting username and name to the request's username and the new hash. If there is no passwordless user, it creates a new user. |
| `Auth.AuthService.Login` | backend/src/server/auth/service.rs:87-120 | A locked-out login returns the lockout error before any credential check and leaves the map unchanged. Otherwise it returns `TryLogin`'s result and applies `AfterLogin` to the name as typed. |
| `Auth.AuthService.LoginFoldedKey` | backend/src/server/auth/service.rs:87-120 | The same login, with the lockout entry keyed by the case-folded name (see Findings). |
| `Auth.AuthService.CleanupOldLoginAttempts` | backend/src/server/auth/service.rs:172-180 | The map becomes `Retained` of the old map at `now`. |
| `Auth.FailuresAreCounted` | backend/src/server/auth/service.rs:111-116 | Starting with no entry, each of up to five failures under one name is counted, and the last one's time is recorded. |
| `Auth.FiveFailuresLockOut` | backend/src/server/auth/service.rs:96-137 | Five failed logins lock the name until 900 s after the fifth. |
| `Auth.LockedOutLoginChangesNothing` | backend/src/server/auth/service.rs:96-118 | A locked-out login leaves the map unchanged. Any login changes only its own name's entry. |
| `Auth.CountOnlyGrows` | backend/src/server/auth/service.rs:102-118 | A name's count never decreases, except through a successful login under that name. |
| `Auth.FailureAfterWindowRelocks` | backend/src/server/auth/service.rs:111-137 | Once a name has reached five failures, a failure after the window gets through to the credential check. It then locks the name again for 900 s. |
| `Auth.CleanupIsIdempotentAndKeepsLockouts` | backend/src/server/auth/service.rs:172-180 | Cleanup at a fixed time is idempotent, and it never lifts a lockout in force at that time. |
| `Auth.CaseVariantEscapesLockout` | backend/src/server/auth/service.rs:96-146 | After five failed logins as `n1` from an empty map, `n1` is locked out but a case variant `n2` is not, yet `n2` is checked against the same account. |
| `Auth.OtherKeysLeaveNameAbsent` | backend/src/server/auth/service.rs:111-116 | Failed logins under other names never create an entry for a name. |
| `Auth.FoldedKeySharesOneCounter` | backend/src/server/auth/service.rs:96-116 | Keyed by the folded name, five failures spread over case variants of one name lock every variant. |

## Findings

| source | as written | input that shows it | evidently intended | confidence | as-written member | corrected member |
|---|---|---|---|---|---|---|
| backend/src/server/auth/service.rs:96-116 | The lockout map is keyed by `request.name` exactly as typed, but `try_login` finds the account case-insensitively. | Five failed logins as `admin` lock `admin`. A login as `Admin` has no entry and gets five more password guesses at the same account, and so does every other case variant. | Lock the account: key the map by the case-folded name, the key the credential lookup uses. | medium, not executed | `Auth.CaseVariantEscapesLockout` | `Auth.AuthService.LoginFoldedKey` |

`Auth.FoldedKeySharesOneCounter` proves the intended property of the corrected login.

## Left out

- The discovery-session manager and its timeout and retention sweeps are not modelled. `src/bin/server.rs` only constructs it and calls its cleanup, so neither the session state machine nor the reclaimer is modelled.
- SQL execution and `sqlx` row access: every statement is a map operation. Engine failures (connectivity, driver errors) are not modelled. The only failures modelled are the assumed unique constraints and row decoding.
- The unique constraints on `id`, `host_id` and `api_key` are an assumption. The database schema is not modelled.
- `serde_json` encoding of addresses: abstract `IpCodec`. Encoding an address cannot fail, so the `?` after `to_string` has no error path here.
- `DaemonStorage.PostgresDaemonStorage.GetAll`: rows with equal `registered_at` come back in whichever order the selection loop produces. The SQL leaves the order of ties unspecified too.
- `DaemonStorage.PostgresDaemonStorage.Create`: the two `Utc::now()` reads for `last_seen` and `registered_at` are one `now`.
- Timestamps are whole seconds. Sub-second precision of `chrono` and `Instant` is not modelled, and `as_secs` truncation is implicit.
- The `reqwest` client, JSON request bodies (with the session id), `Endpoint` URL formatting and transport timeouts: each call's response is an input, `None` when no response arrived.
- Logging (`tracing`) is not modelled.
- Argon2 hashing and its random salt: the hash or its failure is an argument of `Register`. Verification is the abstract `verify`. `Register` returns what it would write (`ClaimSeed` or `CreateUser`). The user service's `update_user`, `create_user` and `get_all_users` calls and their failures are not modelled.
- Request validation (`validator`) is a boolean argument. The validation rules on the request types are not modelled.
- `str::to_lowercase` is the abstract `lower`. Unicode case mapping is not modelled.
- `Auth.AuthService.Login`: the failure count is an unbounded `nat`, not a `u32`. Overflow would need about 2^32 failures, and once a name is locked a failure can only be counted after each 900 s window.
- `RwLock`, `Arc` and `async` are not modelled: every operation is one sequential step on the class's state.
- The periodic task that calls `cleanup_old_login_attempts`, and the rest of the process setup (CLI, configuration, routing), are not modelled.
