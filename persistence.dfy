/**
 * The configuration persistence service: the single owner of the current
 * deployment.  `Save` replaces it wholesale once the durable write has
 * succeeded; `Get` reads it.
 */
module Persistence {
  import opened Model

  class ConfigurationPersistenceService {
    /** The current (last committed) deployment. */
    var current: Deployment

    /** A started service holding `initial`: the empty deployment, or the one loaded from disk. */
    constructor (initial: Deployment)
      ensures current == initial
    {
      current := initial;
    }

    /** The current deployment. */
    method Get() returns (d: Deployment)
      ensures d == current
    {
      d := current;
    }

    /**
     * Commit `next` as the current deployment.  `written` is the outcome of
     * the durable write; when it failed the current deployment is unchanged
     * and the returned signal is a failure.
     */
    method Save(next: Deployment, written: bool) returns (committed: bool)
      modifies this
      ensures committed == written
      ensures current == (if written then next else old(current))
    {
      committed := written;
      if written {
        current := next;
      }
    }
  }
}
