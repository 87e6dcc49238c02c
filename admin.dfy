/**
 * Operator control of a pipeline (RedisPipelineAdmin): Push and Stop are
 * single writes that need no lock; Clean and Resume take the lock and fail
 * with an error when they cannot, leaving the store untouched.
 */
module Admin {
  import opened Wrappers
  import opened StateCodec
  import opened Extensions
  import opened Store

  /** The two InvalidOperationExceptions the admin raises. */
  datatype AdminError = LockNotAcquired | NotStopped

  /** The outcome of a guarded admin operation: the new store, or the error raised. */
  datatype AdminResult = Done(after: Snapshot) | Raised(error: AdminError)

  /** Push appends the payload at the tail of the queue. */
  function Pushed(s: Snapshot, payload: string): (r: Snapshot)
    ensures |r.messages| == |s.messages| + 1
    ensures r.messages[..|s.messages|] == s.messages && r.messages[|s.messages|] == payload
    ensures r.state == s.state && r.failure == s.failure
  {
    s.(messages := s.messages + [payload])
  }

  /** Stop writes the sentinel into the state slot. */
  function Stopped(s: Snapshot): (r: Snapshot)
    ensures IsStopped(r.state)
    ensures r.messages == s.messages && r.failure == s.failure
  {
    s.(state := Some(STATE_STOPPED))
  }

  /** Clean deletes the three slots under the lock. */
  function Cleaned(s: Snapshot, lockAcquired: bool): (r: AdminResult)
    ensures r.Done? <==> lockAcquired
    ensures r.Raised? ==> r.error == LockNotAcquired
    ensures r.Done? ==> r.after.messages == [] && r.after.state.None? && r.after.failure.None?
  {
    if !lockAcquired then Raised(LockNotAcquired) else Done(Empty)
  }

  /**
   * Resume, under the lock and only from the sentinel, pops up to `skip`
   * messages from the head and resets the count to "0" in one transaction.
   */
  function Resumed(s: Snapshot, lockAcquired: bool, skip: nat): (r: AdminResult)
    ensures r.Done? <==> lockAcquired && IsStopped(s.state)
    ensures r.Raised? ==> r.error == if lockAcquired then NotStopped else LockNotAcquired
    ensures r.Done? ==> !IsStopped(r.after.state) && r.after.failure == s.failure
    ensures r.Done? ==> var dropped := |s.messages| - |r.after.messages|;
      dropped == (if skip <= |s.messages| then skip else |s.messages|) &&
      s.messages == s.messages[..dropped] + r.after.messages
  {
    if !lockAcquired then Raised(LockNotAcquired)
    else if !IsStopped(s.state) then Raised(NotStopped)
    else
      var popped := if skip <= |s.messages| then skip else |s.messages|;
      NumericNeverStopped(0);
      assert s.messages == s.messages[..popped] + s.messages[popped..];
      Done(s.(messages := s.messages[popped..], state := Some(FormatInt(0))))
  }

  class Admin {
    const store: Store

    constructor (store: Store)
      ensures this.store == store
    {
      this.store := store;
    }

    method Push(payload: string)
      modifies store
      ensures store.Snap() == Pushed(old(store.Snap()), payload)
    {
      store.messages := store.messages + [payload];
    }

    method Stop()
      modifies store
      ensures store.Snap() == Stopped(old(store.Snap()))
    {
      store.state := Some(STATE_STOPPED);
    }

    method Clean(lockAcquired: bool) returns (error: Option<AdminError>)
      modifies store
      ensures error.None? ==> Cleaned(old(store.Snap()), lockAcquired) == Done(store.Snap())
      ensures error.Some? ==>
        Cleaned(old(store.Snap()), lockAcquired) == Raised(error.value) && store.Snap() == old(store.Snap())
    {
      if !lockAcquired {
        return Some(LockNotAcquired);
      }
      store.failure, store.state, store.messages := None, None, [];
      return None;
    }

    method Resume(lockAcquired: bool, skip: nat) returns (error: Option<AdminError>)
      modifies store
      ensures error.None? ==> Resumed(old(store.Snap()), lockAcquired, skip) == Done(store.Snap())
      ensures error.Some? ==>
        Resumed(old(store.Snap()), lockAcquired, skip) == Raised(error.value) && store.Snap() == old(store.Snap())
    {
      if !lockAcquired {
        return Some(LockNotAcquired);
      }
      var observed := store.state;
      if !IsStopped(observed) {
        return Some(NotStopped);
      }
      var popped := if skip <= |store.messages| then skip else |store.messages|;
      store.messages, store.state := store.messages[popped..], Some(FormatInt(0));
      return None;
    }
  }
}
