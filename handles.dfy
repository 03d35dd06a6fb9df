/** `AutoHandle`: a handle owned by a scope and released when the scope ends. */
module Handles {
  import opened Win32

  /** The calls `close` makes for a handle: one `CloseHandle` for a non-null handle, none for the null one. */
  function CloseCalls(h: Handle): seq<Call>
  {
    if h != 0 then [Close(h)] else []
  }

  class AutoHandle {
    var handle: Handle

    /** `HANDLE handle = 0`. */
    constructor ()
      ensures handle == 0
    {
      handle := 0;
    }

    /**
     * Releases a non-null handle and forgets it. The destructor is this call;
     * since Dafny has no destructors, its callers make it at the end of the scope.
     */
    method Close(os: Os)
      modifies this, os
      ensures handle == 0
      ensures os.trace == old(os.trace) + CloseCalls(old(handle))
    {
      if handle != 0 {
        os.CloseHandle(handle);
        handle := 0;
      }
    }
  }

  /** Closing twice releases the handle once: `close` is idempotent. */
  method CloseTwice(a: AutoHandle, os: Os)
    modifies a, os
    ensures a.handle == 0
    ensures os.trace == old(os.trace) + CloseCalls(old(a.handle))
    ensures old(a.handle) != 0 ==> multiset(os.trace)[Close(old(a.handle))] == multiset(old(os.trace))[Close(old(a.handle))] + 1
  {
    a.Close(os);
    a.Close(os);
  }
}
