/**
 * The lock service: a single lock held by whoever knows its key. Taking the lock
 * records the time and a new key; a held lock older than the timeout may be taken
 * over; releasing needs the current key. The clock reading and the random key are
 * parameters.
 */
module MutexService {
  import opened Wrappers

  /** `LOCK_TIMEOUT` when the environment does not set it. */
  const DefaultLockTimeout: int := 600

  /** `randint(0, 999999)` draws from this range. */
  const MaxKey: int := 999999

  /** The two module-level variables `lock_time` and `keyId`. */
  datatype LockState = LockState(lockTime: Option<int>, keyId: Option<int>)

  /** The time and the key are set and cleared together, and a key is in the drawn range. */
  predicate Consistent(s: LockState) {
    (s.lockTime.None? <==> s.keyId.None?) &&
    (s.keyId.Some? ==> 0 <= s.keyId.value <= MaxKey)
  }

  const Unlocked: LockState := LockState(None, None)

  /** A lock is free when none is held or the held one is at least `timeout` old. */
  predicate Available(s: LockState, now: int, timeout: int) {
    s.lockTime.None? || now - s.lockTime.value >= timeout
  }

  datatype LockOutcome = LockOutcome(state: LockState, success: bool, code: int)

  /** `_lock_req()` at clock reading `now`, drawing `key`. */
  function LockStep(s: LockState, now: int, key: int, timeout: int): (r: LockOutcome)
    ensures r.success <==> Available(s, now, timeout)
    ensures r.success ==> r.state == LockState(Some(now), Some(key)) && r.code == key
    ensures !r.success ==> r.state == s && r.code == 0
  {
    if s.lockTime.None? then LockOutcome(LockState(Some(now), Some(key)), true, key)
    else if now - s.lockTime.value >= timeout then LockOutcome(LockState(Some(now), Some(key)), true, key)
    else LockOutcome(s, false, 0)
  }

  datatype UnlockOutcome = UnlockOutcome(state: LockState, unlocked: bool)

  /** `_unlock_req(keynum)`: `keynum` is an int (`-1` when the parameter is missing), so it
    * never equals a `keyId` of None. */
  function UnlockStep(s: LockState, keynum: int): (r: UnlockOutcome)
    ensures r.unlocked <==> s.keyId == Some(keynum)
    ensures r.unlocked ==> r.state == Unlocked
    ensures !r.unlocked ==> r.state == s
  {
    if s.keyId.Some? && keynum == s.keyId.value then UnlockOutcome(Unlocked, true)
    else UnlockOutcome(s, false)
  }

  /** Both steps keep the time and the key set and cleared together. */
  lemma {:induction false} StepsKeepConsistent(s: LockState, now: int, key: int, timeout: int, keynum: int)
    requires Consistent(s) && 0 <= key <= MaxKey
    ensures Consistent(LockStep(s, now, key, timeout).state)
    ensures Consistent(UnlockStep(s, keynum).state)
  {
  }

  /** Mutual exclusion: once the lock is taken at `t`, nobody else gets it before `t + timeout`,
    * whatever key is drawn, and a second request changes nothing. */
  lemma {:induction false} HeldLockExcludes(s: LockState, t: int, key: int, timeout: int, later: int, key2: int)
    requires LockStep(s, t, key, timeout).success && later - t < timeout
    ensures var held := LockStep(s, t, key, timeout).state;
      !LockStep(held, later, key2, timeout).success && LockStep(held, later, key2, timeout).state == held
  {
  }

  /** Take-over: a lock at least `timeout` old goes to the next request, with a new time and key. */
  lemma {:induction false} ExpiredLockTakenOver(s: LockState, t: int, key: int, timeout: int, later: int, key2: int)
    requires LockStep(s, t, key, timeout).success && later - t >= timeout
    ensures LockStep(LockStep(s, t, key, timeout).state, later, key2, timeout) ==
      LockOutcome(LockState(Some(later), Some(key2)), true, key2)
  {
  }

  /** The holder's key releases the lock, after which anyone gets it at once; any other key
    * leaves it held. */
  lemma {:induction false} OnlyHolderReleases(s: LockState, t: int, key: int, timeout: int, keynum: int, now: int, key2: int)
    requires LockStep(s, t, key, timeout).success
    ensures var held := LockStep(s, t, key, timeout).state;
      && (UnlockStep(held, keynum).unlocked <==> keynum == key)
      && (keynum == key ==> LockStep(UnlockStep(held, keynum).state, now, key2, timeout).success)
      && (keynum != key ==> UnlockStep(held, keynum).state == held)
  {
  }

  /** With no lock held, nothing can be released. */
  lemma {:induction false} NothingToRelease(keynum: int)
    ensures UnlockStep(Unlocked, keynum) == UnlockOutcome(Unlocked, false)
  {
  }

  // ---------------------------------------------------------------------------
  // The HTTP answers.

  datatype Body = KeyText(key: int) | Message(text: string)
  datatype Response = Response(body: Body, status: int)

  /** `lock_req`: the key with 202, or `unavailable` with 409. */
  function LockResponse(success: bool, code: int): (resp: Response)
    ensures resp.status == 202 <==> success
    ensures resp.status == 409 <==> !success
    ensures success ==> resp.body == KeyText(code)
  {
    if success then Response(KeyText(code), 202) else Response(Message("unavailable"), 409)
  }

  /** `unlock_req` as written: `not lock_time` is also true of a lock taken at clock
    * reading 0. */
  function UnlockResponseAsWritten(unlocked: bool, lockTime: Option<int>): Response {
    if unlocked then Response(Message("unlocked"), 202)
    else if lockTime.None? || lockTime.value == 0 then Response(Message("no current lock"), 409)
    else Response(Message("wrong mutexKey parameter"), 401)
  }

  /** A held lock taken at time 0 is reported as absent when the wrong key is sent. */
  lemma {:induction false} HeldLockAtZeroReportedMissing()
    ensures var held := LockStep(Unlocked, 0, 5, DefaultLockTimeout).state;
      held.lockTime.Some? && !UnlockStep(held, 7).unlocked &&
      UnlockResponseAsWritten(false, held.lockTime).status == 409
  {
  }

  /** `unlock_req` with the evidently intended test `lock_time is None`: 202 on release,
    * 409 when no lock is held, 401 for a wrong key. */
  function UnlockResponse(unlocked: bool, lockTime: Option<int>): (resp: Response)
    ensures resp.status == 202 <==> unlocked
    ensures resp.status == 409 <==> !unlocked && lockTime.None?
    ensures resp.status == 401 <==> !unlocked && lockTime.Some?
  {
    if unlocked then Response(Message("unlocked"), 202)
    else if lockTime.None? then Response(Message("no current lock"), 409)
    else Response(Message("wrong mutexKey parameter"), 401)
  }

  /** For a consistent state, the intended answer tells the three cases apart: released, no
    * lock, and a lock held under another key. */
  lemma {:induction false} UnlockAnswers(s: LockState, keynum: int)
    requires Consistent(s)
    ensures var r := UnlockStep(s, keynum);
      var status := UnlockResponse(r.unlocked, r.state.lockTime).status;
      && (status == 202 <==> s.keyId == Some(keynum))
      && (status == 409 <==> s.keyId.None?)
      && (status == 401 <==> s.keyId.Some? && s.keyId != Some(keynum))
  {
  }

  // ---------------------------------------------------------------------------
  // The service and its state.

  /** The running service: the two globals and the timeout read at start-up. */
  class LockService {
    var lockTime: Option<int>
    var keyId: Option<int>
    const lockTimeout: int

    function State(): LockState
      reads this
    {
      LockState(lockTime, keyId)
    }

    /** Start-up: no lock held. */
    constructor (timeout: int)
      ensures State() == Unlocked && lockTimeout == timeout
    {
      lockTime := None;
      keyId := None;
      lockTimeout := timeout;
    }

    /** `_lock_req()`, with the clock reading `now` and the drawn `key` passed in. */
    method Lock(now: int, key: int) returns (success: bool, code: int)
      requires Consistent(State()) && 0 <= key <= MaxKey
      modifies this
      ensures Consistent(State())
      ensures LockOutcome(State(), success, code) == LockStep(old(State()), now, key, lockTimeout)
    {
      if lockTime.None? {
        lockTime := Some(now);
        keyId := Some(key);
        return true, key;
      } else if now - lockTime.value >= lockTimeout {
        lockTime := Some(now);
        keyId := Some(key);
        return true, key;
      }
      return false, 0;
    }

    /** `_unlock_req(keynum)`. */
    method Unlock(keynum: int) returns (unlocked: bool)
      requires Consistent(State())
      modifies this
      ensures Consistent(State())
      ensures UnlockOutcome(State(), unlocked) == UnlockStep(old(State()), keynum)
    {
      if keyId.Some? && keynum == keyId.value {
        lockTime := None;
        keyId := None;
        return true;
      }
      return false;
    }

    /** `PUT /lock`. */
    method LockRequest(now: int, key: int) returns (resp: Response)
      requires Consistent(State()) && 0 <= key <= MaxKey
      modifies this
      ensures Consistent(State())
      ensures var r := LockStep(old(State()), now, key, lockTimeout);
        State() == r.state && resp == LockResponse(r.success, r.code)
    {
      var success, code := Lock(now, key);
      resp := LockResponse(success, code);
    }

    /** `PUT /unlock?mutexKey=keynum`, with the intended `lock_time is None` test. */
    method UnlockRequest(keynum: int) returns (resp: Response)
      requires Consistent(State())
      modifies this
      ensures Consistent(State())
      ensures var r := UnlockStep(old(State()), keynum);
        State() == r.state && resp == UnlockResponse(r.unlocked, lockTime)
    {
      var unlocked := Unlock(keynum);
      resp := UnlockResponse(unlocked, lockTime);
    }
  }
}
