/**
 * Two flushes against stores whose answers are fixed in advance: one that
 * leaves everything unprocessed twice before draining, and one that always
 * throws a retryable exception.
 */
module WriteScenarios {
  import opened Types
  import opened RetryConfig
  import opened Backoff
  import opened StoreClient
  import opened WriteSpec

  /** A store that leaves every request unprocessed on its first two calls and applies the third. */
  function DrainsOnThirdCall(): Store {
    (n: nat, request: WritesPerTable) =>
      Returned(BatchWriteItemResponse(if n < 2 then request else map[]))
  }

  /** A store whose every call throws `e`. */
  function AlwaysThrows(e: Throwable): Store {
    (n: nat, request: WritesPerTable) => Threw(e)
  }

  /**
   * Everything unprocessed on the first two calls, nothing on the third: the
   * flush passes after three rounds, the resume backoff having granted two
   * resumptions, and every round resends the whole request.
   */
  lemma PartialFailuresDrain(writes: WritesPerTable, config: Option<RetryConfiguration>,
                             retryBackoff: BackoffPolicy, resumeBackoff: BackoffPolicy)
    requires |writes| > 0
    requires Continues(resumeBackoff, 1, 0) && Continues(resumeBackoff, 2, 1)
    ensures var run := ResumeLoop(DrainsOnThirdCall(), writes, 0, 0, config, retryBackoff, resumeBackoff, []);
      && run.result == Pass
      && |run.rounds| == 3
      && forall i :: 0 <= i < 3 ==> run.rounds[i].request == writes && run.rounds[i].retry.attempts == 1
  {
    var store := DrainsOnThirdCall();
    var r0 := RetryLoop(store, writes, 0, 1, config, retryBackoff);
    assert r0 == RetryRun(1, Success(BatchWriteItemResponse(writes)));
    var d1 := [Round(writes, r0)];
    ResumeLoopResumes(store, writes, 0, 0, config, retryBackoff, resumeBackoff, [], r0);
    var r1 := RetryLoop(store, writes, 1, 1, config, retryBackoff);
    assert r1 == RetryRun(1, Success(BatchWriteItemResponse(writes)));
    var d2 := d1 + [Round(writes, r1)];
    ResumeLoopResumes(store, writes, 1, 1, config, retryBackoff, resumeBackoff, d1, r1);
    var r2 := RetryLoop(store, writes, 2, 1, config, retryBackoff);
    assert r2 == RetryRun(1, Success(BatchWriteItemResponse(map[])));
    ResumeLoopPasses(store, writes, 2, 2, config, retryBackoff, resumeBackoff, d2, r2);
  }

  /**
   * A store that always throws an exception the predicate accepts, with
   * three attempts allowed and the duration cap never reached: the flush
   * fails with "retries exceeded" after exactly three calls, all with the
   * grouped request, and makes no second round.
   */
  lemma RetriesExhausted(writes: WritesPerTable, e: Throwable, c: RetryConfiguration,
                         retryBackoff: BackoffPolicy, resumeBackoff: BackoffPolicy)
    requires c.maxAttempts == 3 && c.retryPredicate(e)
    requires retryBackoff.maxRetries == c.maxAttempts - 1
    requires !retryBackoff.capReached(1, 0) && !retryBackoff.capReached(2, 1)
    ensures var run := ResumeLoop(AlwaysThrows(e), writes, 0, 0, Some(c), retryBackoff, resumeBackoff, []);
      && run.result == Fail(RetriesExceeded(3, e))
      && |run.rounds| == 1
      && CallsOf(run.rounds) == [writes, writes, writes]
  {
    var store := AlwaysThrows(e);
    var retry := RetryLoop(store, writes, 0, 1, Some(c), retryBackoff);
    assert RetryLoop(store, writes, 0, 3, Some(c), retryBackoff) == RetryRun(3, Failure(RetriesExceeded(3, e)));
    assert RetryLoop(store, writes, 0, 2, Some(c), retryBackoff) == RetryRun(3, Failure(RetriesExceeded(3, e)));
    assert retry == RetryRun(3, Failure(RetriesExceeded(3, e)));
    ResumeLoopFails(store, writes, 0, 0, Some(c), retryBackoff, resumeBackoff, [], retry);
    CallsOfSnoc([], Round(writes, retry));
    assert [] + [Round(writes, retry)] == [Round(writes, retry)];
    var calls := Repeat(writes, 3);
    assert calls == [writes, writes, writes] by {
      assert |calls| == 3 && calls[0] == writes && calls[1] == writes && calls[2] == writes;
    }
  }
}
