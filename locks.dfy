/**
 * The owner-checked lock protocol shared by the bus, the data cache positions and the context
 * queue: a `tryLock` by the thread that already holds the lock and an `unlock` by a thread that
 * does not hold it both raise TryLockException; otherwise `tryLock` succeeds exactly when the lock
 * is free.
 */
module Locks {
  import opened Wrappers
  import opened Exceptions

  /** Identity of a simulated thread (a core or a miss handler). */
  type ThreadId = nat

  /** A non-faulting `tryLock`: whether the caller got the lock, and who holds it afterwards. */
  datatype Attempt = Attempt(acquired: bool, holder: Option<ThreadId>)

  function TryLock(holder: Option<ThreadId>, caller: ThreadId): (r: Result<Attempt, Fault>)
    ensures r.Err? <==> holder == Some(caller)
    ensures r.Err? ==> r.error == TryLockException
    ensures r.Ok? ==> (r.value.acquired <==> holder.None?)
    ensures r.Ok? && r.value.acquired ==> r.value.holder == Some(caller)
    ensures r.Ok? && !r.value.acquired ==> r.value.holder == holder
  {
    if holder == Some(caller) then Err(TryLockException)
    else if holder.None? then Ok(Attempt(true, Some(caller)))
    else Ok(Attempt(false, holder))
  }

  /** `unlock`: frees the lock when the caller holds it; the new holder is returned. */
  function Unlock(holder: Option<ThreadId>, caller: ThreadId): (r: Result<Option<ThreadId>, Fault>)
    ensures r.Err? <==> holder != Some(caller)
    ensures r.Err? ==> r.error == TryLockException
    ensures r.Ok? ==> r.value.None?
  {
    if holder == Some(caller) then Ok(None) else Err(TryLockException)
  }

  /** While one thread holds the lock, no other thread acquires it and the holder itself faults. */
  lemma MutualExclusion(holder: Option<ThreadId>, t: ThreadId, u: ThreadId)
    requires TryLock(holder, t).Ok? && TryLock(holder, t).value.acquired
    ensures TryLock(TryLock(holder, t).value.holder, t).Err?
    ensures u != t ==> TryLock(TryLock(holder, t).value.holder, u) == Ok(Attempt(false, Some(t)))
  {
  }

  /** Acquiring and then releasing restores a free lock, after which anyone acquires it. */
  lemma AcquireReleaseRoundTrip(t: ThreadId, u: ThreadId)
    ensures TryLock(None, t) == Ok(Attempt(true, Some(t)))
    ensures Unlock(Some(t), t) == Ok(None)
    ensures TryLock(Unlock(Some(t), t).value, u) == Ok(Attempt(true, Some(u)))
  {
  }
}
