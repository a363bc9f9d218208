/**
 * The client's HeaderContext: one thread's slot holding the header map to be
 * attached to outbound calls, or null.
 */
module HeaderContext {
  import opened Wrappers

  /** The thread-local slot of one thread. */
  class HeaderSlot {
    var context: Option<map<string, string>>

    /** A thread on which nothing has been set yet. */
    constructor ()
      ensures Get() == None
    {
      context := None;
    }

    /** get: the map last set on this thread, or null. */
    function Get(): Option<map<string, string>>
      reads this
    {
      context
    }

    /** set: a later set overwrites an earlier one; setting null is allowed. */
    method Set(headers: Option<map<string, string>>)
      modifies this
      ensures Get() == headers
    {
      context := headers;
    }

    /** clear: removes the value; clearing twice is the same as clearing once. */
    method Clear()
      modifies this
      ensures Get() == None
    {
      context := None;
    }
  }
}
