/**
 * src/hooks/useSessionLock.jsx: one device at a time per account.  The
 * `sessions` collection is an object shared by every device's hook; a hook
 * holds its device id, the `isBlocked` and `isCheckingLock` flags and the
 * heartbeat timer.  Clock readings are parameters (the server timestamp and
 * `Date.now()` are taken to be the same clock), and a failing Firestore
 * call is a parameter saying which call failed.
 */
module SessionLock {
  import opened Wrappers

  const SessionTimeoutMs: int := 5 * 60 * 1000
  const HeartbeatIntervalMs: int := 2 * 60 * 1000

  /** A `sessions` document: the device holding the lock and when it last wrote it (None when the field is missing). */
  datatype Lock = Lock(deviceId: string, lockedAt: Option<int>)

  /** `lockedAt?.toDate?.() ?? new Date(0)`, in milliseconds. */
  function LockedAtMs(lock: Lock): int {
    if lock.lockedAt.Some? then lock.lockedAt.value else 0
  }

  function LockOf(sessions: map<string, Lock>, uid: string): Option<Lock> {
    if uid in sessions then Some(sessions[uid]) else None
  }

  /** Acquiring is blocked: a lock exists, is younger than the timeout, and belongs to another device. */
  predicate Blocks(lock: Option<Lock>, now: int, me: string) {
    lock.Some? && now - LockedAtMs(lock.value) < SessionTimeoutMs && lock.value.deviceId != me
  }

  /** A successful acquire, as a function of the store: blocked and unchanged, or the lock written for this device. */
  function AcquireOn(sessions: map<string, Lock>, uid: string, me: string, now: int): (bool, map<string, Lock>) {
    if Blocks(LockOf(sessions, uid), now, me) then (true, sessions)
    else (false, sessions[uid := Lock(me, Some(now))])
  }

  /**
   * Two devices: once device `a` holds the lock from time `t1`, device `b`
   * is refused exactly while less than five minutes have passed, and `a`
   * itself is never refused.
   */
  lemma SecondDeviceBlocked(sessions: map<string, Lock>, uid: string, a: string, b: string, t1: int, t2: int)
    requires a != b
    requires !AcquireOn(sessions, uid, a, t1).0
    ensures var s1 := AcquireOn(sessions, uid, a, t1).1;
      && (AcquireOn(s1, uid, b, t2).0 <==> t2 - t1 < SessionTimeoutMs)
      && !AcquireOn(s1, uid, a, t2).0
      && AcquireOn(s1, uid, a, t2).1 == s1[uid := Lock(a, Some(t2))]
  {
    var s1 := AcquireOn(sessions, uid, a, t1).1;
    assert LockOf(s1, uid) == Some(Lock(a, Some(t1)));
  }

  /**
   * A heartbeat every two minutes keeps the lock live: a lock written at
   * most one interval ago blocks any other device, since the interval is
   * shorter than the timeout.
   */
  lemma HeartbeatKeepsLock(lock: Lock, now: int, me: string)
    requires lock.lockedAt.Some? && 0 <= now - lock.lockedAt.value <= HeartbeatIntervalMs
    requires lock.deviceId != me
    ensures Blocks(Some(lock), now, me)
    ensures HeartbeatIntervalMs < SessionTimeoutMs
  {
  }

  /** A lock without a time counts as written at the epoch, so on any clock past the first five minutes it is stale. */
  lemma MissingTimeIsStale(deviceId: string, now: int, me: string)
    requires now >= SessionTimeoutMs
    ensures !Blocks(Some(Lock(deviceId, None)), now, me)
  {
  }

  /** Once the lock is released, any device acquires it. */
  lemma ReleaseFrees(sessions: map<string, Lock>, uid: string, me: string, now: int)
    ensures !AcquireOn(sessions - {uid}, uid, me, now).0
    ensures AcquireOn(sessions - {uid}, uid, me, now).1 == (sessions - {uid})[uid := Lock(me, Some(now))]
  {
    assert LockOf(sessions - {uid}, uid) == None;
  }

  /** Which Firestore call of `acquireLock` throws, if any. */
  datatype Failure = NoFailure | ReadFails | WriteFails

  /** The `sessions` collection, shared by all devices. */
  class SessionStore {
    var sessions: map<string, Lock>

    constructor()
      ensures sessions == map[]
    {
      sessions := map[];
    }
  }

  class SessionLockHook {
    const store: SessionStore
    const deviceId: string
    var isBlocked: bool
    var isCheckingLock: bool
    /** The account the heartbeat timer refreshes, None when no timer runs. */
    var heartbeat: Option<string>

    constructor(store: SessionStore, deviceId: string)
      ensures this.store == store && this.deviceId == deviceId
      ensures !isBlocked && isCheckingLock && heartbeat == None
    {
      this.store := store;
      this.deviceId := deviceId;
      isBlocked := false;
      isCheckingLock := true;
      heartbeat := None;
    }

    /** `clearHeartbeat()`. */
    method ClearHeartbeat()
      modifies this
      ensures heartbeat == None && isBlocked == old(isBlocked) && isCheckingLock == old(isCheckingLock)
    {
      heartbeat := None;
    }

    /**
     * `acquireLock(lockUid)`: a live lock of another device blocks;
     * otherwise this device's lock is written, the flags cleared and the
     * heartbeat started.  A failing call only ends the check.
     */
    method AcquireLock(lockUid: string, now: int, failure: Failure)
      modifies this, store
      ensures !isCheckingLock
      ensures failure == ReadFails ==>
        store.sessions == old(store.sessions) && isBlocked == old(isBlocked) && heartbeat == old(heartbeat)
      ensures failure != ReadFails && Blocks(LockOf(old(store.sessions), lockUid), now, deviceId) ==>
        store.sessions == old(store.sessions) && isBlocked && heartbeat == old(heartbeat)
      ensures failure == WriteFails && !Blocks(LockOf(old(store.sessions), lockUid), now, deviceId) ==>
        store.sessions == old(store.sessions) && isBlocked == old(isBlocked) && heartbeat == old(heartbeat)
      ensures failure == NoFailure && !Blocks(LockOf(old(store.sessions), lockUid), now, deviceId) ==>
        && store.sessions == AcquireOn(old(store.sessions), lockUid, deviceId, now).1
        && !isBlocked && heartbeat == Some(lockUid)
    {
      isCheckingLock := true;
      if failure == ReadFails {
        isCheckingLock := false;
        return;
      }
      var lock := LockOf(store.sessions, lockUid);
      if Blocks(lock, now, deviceId) {
        isBlocked := true;
        isCheckingLock := false;
        return;
      }
      if failure == WriteFails {
        isCheckingLock := false;
        return;
      }
      store.sessions := store.sessions[lockUid := Lock(deviceId, Some(now))];
      isBlocked := false;
      isCheckingLock := false;
      ClearHeartbeat();
      heartbeat := Some(lockUid);
    }

    /** One tick of the heartbeat timer: it rewrites this device's lock; a failed write is ignored. */
    method HeartbeatTick(now: int, writeFails: bool)
      modifies store
      ensures heartbeat.Some? && !writeFails ==> store.sessions == old(store.sessions)[heartbeat.value := Lock(deviceId, Some(now))]
      ensures heartbeat.None? || writeFails ==> store.sessions == old(store.sessions)
    {
      if heartbeat.Some? && !writeFails {
        store.sessions := store.sessions[heartbeat.value := Lock(deviceId, Some(now))];
      }
    }

    /** `releaseLock(lockUid)`: the heartbeat stops; with an account its lock is deleted, unless the delete fails. */
    method ReleaseLock(lockUid: string, deleteFails: bool)
      modifies this, store
      ensures heartbeat == None && isBlocked == old(isBlocked) && isCheckingLock == old(isCheckingLock)
      ensures lockUid == "" || deleteFails ==> store.sessions == old(store.sessions)
      ensures lockUid != "" && !deleteFails ==> store.sessions == old(store.sessions) - {lockUid}
    {
      ClearHeartbeat();
      if lockUid == "" {
        return;
      }
      if !deleteFails {
        store.sessions := store.sessions - {lockUid};
      }
    }

    /** The effect run when the signed-in account changes: no account clears both flags, an account is locked. */
    method OnAccount(uid: string, now: int, failure: Failure)
      modifies this, store
      ensures !isCheckingLock
      ensures uid == "" ==> !isBlocked && store.sessions == old(store.sessions) && heartbeat == old(heartbeat)
      ensures uid != "" && failure == NoFailure ==>
        && (isBlocked <==> Blocks(LockOf(old(store.sessions), uid), now, deviceId))
        && (!isBlocked ==> LockOf(store.sessions, uid) == Some(Lock(deviceId, Some(now))))
        && store.sessions == AcquireOn(old(store.sessions), uid, deviceId, now).1
        && heartbeat == (if isBlocked then old(heartbeat) else Some(uid))
      ensures uid != "" && failure != NoFailure ==>
        store.sessions == old(store.sessions) && heartbeat == old(heartbeat)
      ensures uid != "" && failure == ReadFails ==> isBlocked == old(isBlocked)
      ensures uid != "" && failure == WriteFails ==>
        (isBlocked <==> old(isBlocked) || Blocks(LockOf(old(store.sessions), uid), now, deviceId))
    {
      if uid == "" {
        isCheckingLock := false;
        isBlocked := false;
        return;
      }
      AcquireLock(uid, now, failure);
    }
  }
}
