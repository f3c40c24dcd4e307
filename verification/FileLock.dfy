/** A lock file: `flock` grants it to one holder at a time. */
module FileLock {
  import opened Basics

  class LockFile<T(==)> {
    var holder: Option<T>

    constructor ()
      ensures holder == None
    {
      holder := None;
    }

    /** Everyone but `me` takes the free lock or gives it up. */
    method OthersAct(me: T)
      modifies this
      ensures if old(holder) == Some(me) then holder == Some(me) else holder != Some(me)
    {
      var next: Option<T> := *;
      if holder != Some(me) && next != Some(me) {
        holder := next;
      }
    }

    /** `flock(LOCK_EX)`, with or without waiting; a lock already held is granted again. */
    method Lock(me: T, blocking: bool) returns (got: bool)
      modifies this
      ensures got <==> holder == Some(me)
      ensures !got ==> holder.Some?
      ensures blocking || old(holder) == Some(me) ==> got
    {
      OthersAct(me);
      if blocking && holder != Some(me) {
        holder := None;
      }
      got := holder == None || holder == Some(me);
      if got {
        holder := Some(me);
      }
    }

    method Unlock(me: T)
      requires holder == Some(me)
      modifies this
      ensures holder == None
    {
      holder := None;
    }
  }
}
