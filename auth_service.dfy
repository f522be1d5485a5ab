/** `AuthService` (backend/src/server/auth/service.rs): login with a per-name
    lockout after repeated failures, periodic cleanup of the failure table, and
    registration that either claims the passwordless seed user or creates a user.
    The user list is an input (it comes from the user service); case folding and
    password verification are the service's `lower` and `verify` functions,
    left abstract. */
module Auth {
  import opened Wrappers

  type UserId = nat

  const MaxLoginAttempts: nat := 5
  const LockoutDurationSecs: nat := 15 * 60

  datatype UserBase = UserBase(name: string, username: string, passwordHash: Option<string>)

  datatype User = User(id: UserId, base: UserBase)

  datatype LoginRequest = LoginRequest(name: string, password: string)

  datatype RegisterRequest = RegisterRequest(username: string, password: string)

  /** An entry of `login_attempts`: failures so far and the time of the last one, in seconds. */
  datatype Attempt = Attempt(count: nat, lastAttempt: nat)

  type Attempts = map<string, Attempt>

  /** What argon2 says of a password against a stored hash. */
  datatype VerifyOutcome = Verified | Mismatch | MalformedHash

  datatype AuthError =
    | ValidationFailed        // "Validation failed: .."
    | LockedOut(minutes: nat) // "Too many failed login attempts. Try again in .. minutes."
    | InvalidCredentials      // "Invalid username or password"
    | NoPasswordSet           // "User has no password set. Please register first."
    | InvalidPasswordHash     // "Invalid password hash: .."
    | UsernameTaken           // "Username already taken"
    | HashingFailed           // "Password hashing failed: .."

  /** What `register` writes through the user service: the claimed seed user, or
      a new user built from a username and a password hash. */
  datatype Registration = ClaimSeed(user: User) | CreateUser(username: string, passwordHash: string)

  /** `Instant::elapsed().as_secs()`, which is never negative. */
  function Elapsed(now: nat, last: nat): nat {
    if now >= last then now - last else 0
  }

  /** `check_login_lockout` */
  function CheckLoginLockout(attempts: Attempts, name: string, now: nat): (r: Result<(), AuthError>)
    ensures r.Failure? <==>
              && name in attempts && attempts[name].count >= MaxLoginAttempts
              && Elapsed(now, attempts[name].lastAttempt) < LockoutDurationSecs
    ensures r.Failure? ==> r.error.LockedOut? && 1 <= r.error.minutes <= 16
    // the reported wait is never shorter than the lockout still to run, and at most a minute longer
    ensures r.Failure? ==>
              var remaining := LockoutDurationSecs - Elapsed(now, attempts[name].lastAttempt);
              (r.error.minutes - 1) * 60 <= remaining < r.error.minutes * 60
  {
    if name in attempts && attempts[name].count >= MaxLoginAttempts then
      var elapsed := Elapsed(now, attempts[name].lastAttempt);
      if elapsed < LockoutDurationSecs then
        Failure(LockedOut((LockoutDurationSecs - elapsed) / 60 + 1))
      else Success(())
    else Success(())
  }

  /** The failure count stored for `key`, zero when it has no entry. */
  function PriorCount(attempts: Attempts, key: string): nat {
    if key in attempts then attempts[key].count else 0
  }

  /** The table after a login that got past the lockout check: success clears
      the entry of `key`, failure counts one more failure at `now`. */
  function AfterLogin(attempts: Attempts, key: string, succeeded: bool, now: nat): (r: Attempts)
    ensures forall n :: n != key ==> (n in r <==> n in attempts)
    ensures forall n :: n != key && n in r ==> r[n] == attempts[n]
    ensures succeeded ==> key !in r
    ensures !succeeded ==> key in r && r[key].count == PriorCount(attempts, key) + 1 && r[key].lastAttempt == now
  {
    if succeeded then attempts - {key}
    else attempts[key := Attempt(PriorCount(attempts, key) + 1, now)]
  }

  /** The table after one login for `key`: a locked-out login leaves it as it was. */
  function LoginStep(attempts: Attempts, key: string, succeeded: bool, now: nat): Attempts {
    if CheckLoginLockout(attempts, key, now).Failure? then attempts
    else AfterLogin(attempts, key, succeeded, now)
  }

  /** `cleanup_old_login_attempts`: keep the entries whose last failure is recent. */
  function Retained(attempts: Attempts, now: nat): (r: Attempts)
    ensures forall n :: n in r <==> n in attempts && Elapsed(now, attempts[n].lastAttempt) < LockoutDurationSecs
    ensures forall n :: n in r ==> r[n] == attempts[n]
  {
    map n | n in attempts && Elapsed(now, attempts[n].lastAttempt) < LockoutDurationSecs :: attempts[n]
  }

  predicate IsFirstNamed(users: seq<User>, lower: string -> string, name: string, i: int) {
    && 0 <= i < |users|
    && lower(users[i].base.username) == lower(name)
    && forall j :: 0 <= j < i ==> lower(users[j].base.username) != lower(name)
  }

  predicate NoneNamed(users: seq<User>, lower: string -> string, name: string) {
    forall j :: 0 <= j < |users| ==> lower(users[j].base.username) != lower(name)
  }

  /** `find(|u| u.username.to_lowercase() == name.to_lowercase())`, as an index. */
  function FirstNamed(users: seq<User>, lower: string -> string, name: string): (r: Option<nat>)
    ensures r.Some? ==> IsFirstNamed(users, lower, name, r.value)
    ensures r.None? <==> NoneNamed(users, lower, name)
    decreases |users|
  {
    if users == [] then None
    else if lower(users[0].base.username) == lower(name) then Some(0)
    else match FirstNamed(users[1..], lower, name)
      case None => None
      case Some(i) => Some(i + 1)
  }

  /** The case-insensitive search sees only the folded name. */
  lemma {:induction false} FirstNamedDependsOnFoldedName(users: seq<User>, lower: string -> string, n1: string, n2: string)
    requires lower(n1) == lower(n2)
    ensures FirstNamed(users, lower, n1) == FirstNamed(users, lower, n2)
    decreases |users|
  {
    if users != [] {
      FirstNamedDependsOnFoldedName(users[1..], lower, n1, n2);
    }
  }

  predicate IsFirstPasswordless(users: seq<User>, i: int) {
    && 0 <= i < |users|
    && users[i].base.passwordHash.None?
    && forall j :: 0 <= j < i ==> users[j].base.passwordHash.Some?
  }

  /** `find(|u| u.password_hash.is_none())`, as an index. */
  function FirstPasswordless(users: seq<User>): (r: Option<nat>)
    ensures r.Some? ==> IsFirstPasswordless(users, r.value)
    ensures r.None? <==> forall j :: 0 <= j < |users| ==> users[j].base.passwordHash.Some?
    decreases |users|
  {
    if users == [] then None
    else if users[0].base.passwordHash.None? then Some(0)
    else match FirstPasswordless(users[1..])
      case None => None
      case Some(i) => Some(i + 1)
  }

  /** `any(|u| u.username.to_lowercase() == name.to_lowercase() && u.password_hash.is_some())` */
  function RegisteredNamed(users: seq<User>, lower: string -> string, name: string): (b: bool)
    ensures b <==> exists i :: 0 <= i < |users| && users[i].base.passwordHash.Some? &&
                               lower(users[i].base.username) == lower(name)
    decreases |users|
  {
    if users == [] then false
    else (users[0].base.passwordHash.Some? && lower(users[0].base.username) == lower(name))
         || RegisteredNamed(users[1..], lower, name)
  }

  /** The seed user after `register` claims it for `username`. */
  function Claimed(seed: User, username: string, hash: string): User {
    seed.(base := seed.base.(username := username, name := username, passwordHash := Some(hash)))
  }

  class AuthService {
    var loginAttempts: Attempts
    /** `str::to_lowercase` */
    const lower: string -> string
    /** `verify_password`: argon2 verification of a password against a stored hash. */
    const verify: (string, string) -> VerifyOutcome

    constructor (lower: string -> string, verify: (string, string) -> VerifyOutcome)
      ensures loginAttempts == map[] && this.lower == lower && this.verify == verify
    {
      loginAttempts := map[];
      this.lower := lower;
      this.verify := verify;
    }

    /** `try_login`: the first user whose name matches case-insensitively must
        have a password hash and the password must verify against it. */
    function TryLogin(users: seq<User>, req: LoginRequest): (r: Result<User, AuthError>)
      ensures NoneNamed(users, lower, req.name) ==> r == Failure(InvalidCredentials)
      ensures forall i :: IsFirstNamed(users, lower, req.name, i) ==>
                && (users[i].base.passwordHash.None? ==> r == Failure(NoPasswordSet))
                && (r.Success? <==> users[i].base.passwordHash.Some? &&
                                    verify(req.password, users[i].base.passwordHash.value) == Verified)
                && (r.Success? ==> r.value == users[i])
                && (users[i].base.passwordHash.Some? ==>
                      && (verify(req.password, users[i].base.passwordHash.value) == Mismatch ==>
                            r == Failure(InvalidCredentials))
                      && (verify(req.password, users[i].base.passwordHash.value) == MalformedHash ==>
                            r == Failure(InvalidPasswordHash)))
    {
      match FirstNamed(users, lower, req.name)
      case None => Failure(InvalidCredentials)
      case Some(i) =>
        match users[i].base.passwordHash
        case None => Failure(NoPasswordSet)
        case Some(hash) =>
          match verify(req.password, hash)
          case Verified => Success(users[i])
          case Mismatch => Failure(InvalidCredentials)
          case MalformedHash => Failure(InvalidPasswordHash)
    }

    /** `get_user_by_name`: the first user whose name matches case-insensitively. */
    function GetUserByName(users: seq<User>, name: string): (r: Option<User>)
      ensures r.None? <==> NoneNamed(users, lower, name)
      ensures forall i :: IsFirstNamed(users, lower, name, i) ==> r == Some(users[i])
    {
      match FirstNamed(users, lower, name)
      case None => None
      case Some(i) => Some(users[i])
    }

    /** `register`, given whether the request passes validation and the result of
        hashing its password (`None`: hashing failed). */
    function Register(users: seq<User>, req: RegisterRequest, requestValid: bool, hashed: Option<string>)
      : (r: Result<Registration, AuthError>)
      ensures !requestValid ==> r == Failure(ValidationFailed)
      ensures r == Failure(UsernameTaken) <==>
                requestValid &&
                exists i :: 0 <= i < |users| && users[i].base.passwordHash.Some? &&
                            lower(users[i].base.username) == lower(req.username)
      ensures r == Failure(HashingFailed) <==>
                requestValid && !RegisteredNamed(users, lower, req.username) && hashed.None?
      ensures r.Success? <==> requestValid && !RegisteredNamed(users, lower, req.username) && hashed.Some?
      ensures r.Success? ==> forall i :: IsFirstPasswordless(users, i) ==>
                r.value == ClaimSeed(Claimed(users[i], req.username, hashed.value))
      ensures r.Success? && (forall j :: 0 <= j < |users| ==> users[j].base.passwordHash.Some?) ==>
                r.value == CreateUser(req.username, hashed.value)
    {
      if !requestValid then Failure(ValidationFailed)
      else if RegisteredNamed(users, lower, req.username) then Failure(UsernameTaken)
      else match hashed
        case None => Failure(HashingFailed)
        case Some(hash) =>
          match FirstPasswordless(users)
          case Some(i) => Success(ClaimSeed(Claimed(users[i], req.username, hash)))
          case None => Success(CreateUser(req.username, hash))
    }

    /** `login`: validate, refuse while the name is locked out, try the
        credentials, then clear the name's entry on success or count a failure. */
    method Login(req: LoginRequest, requestValid: bool, users: seq<User>, now: nat)
      returns (r: Result<User, AuthError>)
      modifies this
      ensures !requestValid ==> r == Failure(ValidationFailed)
      ensures requestValid && CheckLoginLockout(old(loginAttempts), req.name, now).Failure? ==>
                r == Failure(CheckLoginLockout(old(loginAttempts), req.name, now).error)
      ensures requestValid && CheckLoginLockout(old(loginAttempts), req.name, now).Success? ==>
                r == TryLogin(users, req)
      ensures loginAttempts == if requestValid then LoginStep(old(loginAttempts), req.name, r.Success?, now)
                               else old(loginAttempts)
    {
      if !requestValid {
        return Failure(ValidationFailed);
      }
      var lock := CheckLoginLockout(loginAttempts, req.name, now);
      if lock.Failure? {
        return Failure(lock.error);
      }
      r := TryLogin(users, req);
      if r.Success? {
        loginAttempts := loginAttempts - {req.name};
      } else {
        var count := PriorCount(loginAttempts, req.name);
        loginAttempts := loginAttempts[req.name := Attempt(count + 1, now)];
      }
    }

    /** `login` with the lockout table keyed by the case-folded name, the key the
        credential lookup itself uses. */
    method LoginFoldedKey(req: LoginRequest, requestValid: bool, users: seq<User>, now: nat)
      returns (r: Result<User, AuthError>)
      modifies this
      ensures !requestValid ==> r == Failure(ValidationFailed)
      ensures requestValid && CheckLoginLockout(old(loginAttempts), lower(req.name), now).Failure? ==>
                r == Failure(CheckLoginLockout(old(loginAttempts), lower(req.name), now).error)
      ensures requestValid && CheckLoginLockout(old(loginAttempts), lower(req.name), now).Success? ==>
                r == TryLogin(users, req)
      ensures loginAttempts == if requestValid then LoginStep(old(loginAttempts), lower(req.name), r.Success?, now)
                               else old(loginAttempts)
    {
      if !requestValid {
        return Failure(ValidationFailed);
      }
      var key := lower(req.name);
      var lock := CheckLoginLockout(loginAttempts, key, now);
      if lock.Failure? {
        return Failure(lock.error);
      }
      r := TryLogin(users, req);
      if r.Success? {
        loginAttempts := loginAttempts - {key};
      } else {
        var count := PriorCount(loginAttempts, key);
        loginAttempts := loginAttempts[key := Attempt(count + 1, now)];
      }
    }

    /** `cleanup_old_login_attempts` */
    method CleanupOldLoginAttempts(now: nat)
      modifies this
      ensures loginAttempts == Retained(old(loginAttempts), now)
    {
      loginAttempts := Retained(loginAttempts, now);
    }
  }

  /** The table after failed logins under the keys `keys`, the i-th at time `times[i]`. */
  function AfterFailedLogins(attempts: Attempts, keys: seq<string>, times: seq<nat>): Attempts
    requires |keys| == |times|
    decreases |keys|
  {
    if keys == [] then attempts
    else
      var n := |keys| - 1;
      LoginStep(AfterFailedLogins(attempts, keys[..n], times[..n]), keys[n], false, times[n])
  }

  /** From no entry, each of the first five failures under one key is counted,
      whatever the times. */
  lemma {:induction false} FailuresAreCounted(attempts: Attempts, key: string, keys: seq<string>, times: seq<nat>)
    requires |keys| == |times| <= MaxLoginAttempts
    requires key !in attempts
    requires forall i :: 0 <= i < |keys| ==> keys[i] == key
    ensures key in AfterFailedLogins(attempts, keys, times) <==> |times| > 0
    ensures |times| > 0 ==> AfterFailedLogins(attempts, keys, times)[key] == Attempt(|times|, times[|times| - 1])
    decreases |keys|
  {
    if keys != [] {
      var n := |keys| - 1;
      FailuresAreCounted(attempts, key, keys[..n], times[..n]);
    }
  }

  /** Five failed logins under one key lock it until fifteen minutes after the fifth. */
  lemma FiveFailuresLockOut(attempts: Attempts, key: string, keys: seq<string>, times: seq<nat>, now: nat)
    requires |keys| == |times| == MaxLoginAttempts
    requires key !in attempts
    requires forall i :: 0 <= i < |keys| ==> keys[i] == key
    requires times[|times| - 1] <= now < times[|times| - 1] + LockoutDurationSecs
    ensures CheckLoginLockout(AfterFailedLogins(attempts, keys, times), key, now).Failure?
  {
    FailuresAreCounted(attempts, key, keys, times);
  }

  /** A locked-out login changes nothing; any other login changes only its own entry. */
  lemma LockedOutLoginChangesNothing(attempts: Attempts, key: string, succeeded: bool, now: nat)
    ensures CheckLoginLockout(attempts, key, now).Failure? ==> LoginStep(attempts, key, succeeded, now) == attempts
    ensures forall n :: n != key ==> (n in LoginStep(attempts, key, succeeded, now) <==> n in attempts)
    ensures forall n :: n != key && n in attempts ==> LoginStep(attempts, key, succeeded, now)[n] == attempts[n]
  {
  }

  /** A name's count never drops, except by a successful login under that name. */
  lemma CountOnlyGrows(attempts: Attempts, key: string, succeeded: bool, now: nat, n: string)
    requires n in attempts
    requires !(succeeded && n == key)
    ensures n in LoginStep(attempts, key, succeeded, now)
    ensures LoginStep(attempts, key, succeeded, now)[n].count >= attempts[n].count
  {
  }

  /** Once a name has reached the limit, a failure after the lockout window
      gets through to the credential check and then locks the name again. */
  lemma FailureAfterWindowRelocks(attempts: Attempts, key: string, now: nat, later: nat)
    requires key in attempts && attempts[key].count >= MaxLoginAttempts
    requires Elapsed(now, attempts[key].lastAttempt) >= LockoutDurationSecs
    requires now <= later < now + LockoutDurationSecs
    ensures CheckLoginLockout(attempts, key, now).Success?
    ensures CheckLoginLockout(LoginStep(attempts, key, false, now), key, later).Failure?
  {
  }

  /** Cleanup at a fixed time is idempotent and never lifts a lockout in force at that time. */
  lemma CleanupIsIdempotentAndKeepsLockouts(attempts: Attempts, now: nat, name: string)
    ensures Retained(Retained(attempts, now), now) == Retained(attempts, now)
    ensures CheckLoginLockout(Retained(attempts, now), name, now) == CheckLoginLockout(attempts, name, now)
  {
    assert Retained(Retained(attempts, now), now).Keys == Retained(attempts, now).Keys;
  }

  /** Failed logins under other keys never create an entry for `n`. */
  lemma {:induction false} OtherKeysLeaveNameAbsent(attempts: Attempts, keys: seq<string>, times: seq<nat>, n: string)
    requires |keys| == |times|
    requires n !in attempts
    requires forall i :: 0 <= i < |keys| ==> keys[i] != n
    ensures n !in AfterFailedLogins(attempts, keys, times)
    decreases |keys|
  {
    if keys != [] {
      var m := |keys| - 1;
      OtherKeysLeaveNameAbsent(attempts, keys[..m], times[..m], n);
    }
  }

  /** As written, the lockout is keyed by the name exactly as typed while the
      credential check folds case: after five failed logins as `n1` from an
      empty table, `n1` is locked out, but its case variant `n2` is not, and
      `n2` is checked against the same account. */
  lemma CaseVariantEscapesLockout(lower: string -> string, users: seq<User>, n1: string, n2: string,
                                  times: seq<nat>, now: nat)
    requires n1 != n2 && lower(n1) == lower(n2)
    requires |times| == MaxLoginAttempts
    requires times[|times| - 1] <= now < times[|times| - 1] + LockoutDurationSecs
    ensures CheckLoginLockout(AfterFailedLogins(map[], [n1, n1, n1, n1, n1], times), n1, now).Failure?
    ensures CheckLoginLockout(AfterFailedLogins(map[], [n1, n1, n1, n1, n1], times), n2, now).Success?
    ensures FirstNamed(users, lower, n1) == FirstNamed(users, lower, n2)
  {
    var keys := [n1, n1, n1, n1, n1];
    FiveFailuresLockOut(map[], n1, keys, times, now);
    OtherKeysLeaveNameAbsent(map[], keys, times, n2);
    FirstNamedDependsOnFoldedName(users, lower, n1, n2);
  }

  /** The lockout keys `LoginFoldedKey` uses for logins under `names`. */
  function FoldedKeys(lower: string -> string, names: seq<string>): (keys: seq<string>)
    ensures |keys| == |names|
    ensures forall i :: 0 <= i < |names| ==> keys[i] == lower(names[i])
  {
    seq(|names|, i requires 0 <= i < |names| => lower(names[i]))
  }

  /** Keyed by the folded name, failed logins under case variants of one name
      all count against one entry, so five of them lock every variant. */
  lemma FoldedKeySharesOneCounter(lower: string -> string, attempts: Attempts, names: seq<string>,
                                  times: seq<nat>, name: string, now: nat)
    requires |names| == |times| == MaxLoginAttempts
    requires forall i :: 0 <= i < |names| ==> lower(names[i]) == lower(name)
    requires lower(name) !in attempts
    requires times[|times| - 1] <= now < times[|times| - 1] + LockoutDurationSecs
    ensures forall n :: lower(n) == lower(name) ==>
              CheckLoginLockout(AfterFailedLogins(attempts, FoldedKeys(lower, names), times), lower(n), now).Failure?
  {
    FiveFailuresLockOut(attempts, lower(name), FoldedKeys(lower, names), times, now);
  }
}
