/** The credit counter a sender of file chunks draws on. */
module FlowCredits {
  import opened Wrappers

  const MAX_FLOW_CREDIT := 16 * 1024 * 1024
  const ROUTE_CAPACITY := 16

  /** The credit after a grant; `None` is the error that ends the connection. */
  function AddCredit(available: nat, bytes: nat): Option<nat> {
    if bytes == 0 || available + bytes > MAX_FLOW_CREDIT then None else Some(available + bytes)
  }

  class FlowCredit {
    var available: nat
    /** Counts the calls of `notify_waiters`. */
    var generation: nat

    constructor ()
      ensures available == 0 && generation == 0
    {
      available, generation := 0, 0;
    }

    method Add(bytes: nat) returns (ok: bool)
      modifies this
      ensures match AddCredit(old(available), bytes)
              case None => !ok && available == old(available) && generation == old(generation)
              case Some(updated) => ok && available == updated && generation == old(generation) + 1
      ensures ok <==> bytes > 0 && old(available) + bytes <= 16777216
      ensures ok ==> available == old(available) + bytes
    {
      if bytes == 0 {
        return false;
      }
      var updated := available + bytes;
      if updated > MAX_FLOW_CREDIT {
        return false;
      }
      available := updated;
      generation := generation + 1;
      return true;
    }

    method TryTake(bytes: nat) returns (taken: bool)
      modifies this`available
      ensures taken <==> bytes <= old(available)
      ensures available == if taken then old(available) - bytes else old(available)
    {
      if available < bytes {
        return false;
      }
      available := available - bytes;
      return true;
    }
  }
}
