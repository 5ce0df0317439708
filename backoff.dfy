/**
 * Backoff policies, reduced to when they stop. How long each wait lasts is
 * not modelled; whether the cumulative wait has reached its cap is an oracle
 * `capReached(calls, k)`, which can only make a policy stop earlier than its
 * retry limit. It is asked when the k-th retry is requested, `calls` being
 * the number of store calls the writer has made by then. No two requests
 * for a retry of one policy are made after the same number of calls, so the
 * oracle can give every run of a policy (every freshly created `BackOff`,
 * with its own randomised waits) a cap of its own.
 */
module Backoff {

  /** The retry limit of the default backoff policy: Integer.MAX_VALUE. */
  const DefaultMaxRetries: nat := 0x7fff_ffff

  datatype BackoffPolicy = BackoffPolicy(maxRetries: nat, capReached: (nat, nat) -> bool)

  /**
   * Whether a policy that has granted `retries` retries grants one more when
   * asked after `calls` store calls.
   */
  predicate Continues(p: BackoffPolicy, calls: nat, retries: nat) {
    retries < p.maxRetries && !p.capReached(calls, retries)
  }

  /** One run of a policy: counts the retries it has granted. */
  class BackOff {
    const policy: BackoffPolicy
    var retries: nat

    constructor (policy: BackoffPolicy)
      ensures this.policy == policy && retries == 0
    {
      this.policy := policy;
      retries := 0;
    }

    /**
     * Asks for one more retry after `calls` store calls; true means wait and
     * retry, false means stop.
     */
    method Next(calls: nat) returns (granted: bool)
      modifies this`retries
      ensures granted == Continues(policy, calls, old(retries))
      ensures retries == if granted then old(retries) + 1 else old(retries)
    {
      granted := retries < policy.maxRetries && !policy.capReached(calls, retries);
      if granted {
        retries := retries + 1;
      }
    }
  }
}
