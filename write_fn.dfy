/**
 * The writer (`Write.WriteFn`): a per-bundle batch of write requests keyed
 * by deduplication identity, flushed through the resume and retry loops
 * once it holds 25 requests and at the end of each bundle.
 */
module WriteIO {
  import opened Types
  import opened RetryConfig
  import opened Backoff
  import opened StoreClient
  import opened WriteSpec

  /**
   * Groups the batch's requests by table. Each identity is visited once, in
   * whatever order the map yields them.
   */
  method GroupByTable(batch: Batch) returns (writes: WritesPerTable)
    requires Injective(batch)
    ensures IsGrouping(batch, writes)
  {
    writes := map[];
    var pending := batch.Keys;
    ghost var done: Batch := map[];
    while pending != {}
      invariant pending <= batch.Keys
      invariant done.Keys == batch.Keys - pending
      invariant forall id :: id in done ==> done[id] == batch[id]
      invariant IsGrouping(done, writes)
      decreases pending
    {
      var id :| id in pending;
      var w := batch[id];
      assert w !in done.Values;
      var list := if w.table in writes then writes[w.table] else [];
      GroupingStep(done, writes, id, w);
      writes := writes[w.table := list + [w.request]];
      done := done[id := w];
      pending := pending - {id};
    }
    assert done == batch;
  }

  class WriteFn {
    const deduplicateKeys: seq<string>
    const retryConfiguration: Option<RetryConfiguration>
    const client: DynamoDbClient
    /** Ends the retry loop: no retries without a configuration, otherwise maxAttempts - 1. */
    const retryBackoff: BackoffPolicy
    /** Paces the resume loop: the default policy, limited only by its retry count. */
    const resumeBackoff: BackoffPolicy
    /** The requests of the current bundle, each under its identity. */
    var batch: Batch
    /** The "DynamoDB_Write_Failures" counter. */
    var writeFailures: nat

    /** Between elements the batch is below its flush size and keyed by identity. */
    ghost predicate Valid()
      reads this
    {
      |batch| < BatchSize && WellKeyed(batch, deduplicateKeys)
    }

    /**
     * What a flush of the batch `before` did, given the calls and failure
     * count it started from: the batch is empty; an empty batch made no
     * call; otherwise the first round sent the batch grouped by table and
     * the whole flush is the resume loop from there.
     */
    ghost predicate Flushed(before: Batch, calls0: seq<WritesPerTable>, failures0: nat, r: Outcome, run: FlushRun)
      reads this, client
    {
      && batch == map[]
      && r == run.result
      && (before == map[] ==> run == FlushRun([], |calls0|, Pass))
      && (before != map[] ==>
            && |run.rounds| > 0
            && IsGrouping(before, run.rounds[0].request)
            && run == ResumeLoop(client.batchResponse, run.rounds[0].request, |calls0|, 0,
                                 retryConfiguration, retryBackoff, resumeBackoff, []))
      && client.batchCalls == calls0 + CallsOf(run.rounds)
      && |client.batchCalls| == run.end
      && writeFailures == failures0 + (if r.Fail? then 1 else 0)
    }

    /** Creates the writer and sets up its client and its two backoff policies. */
    constructor (deduplicateKeys: seq<string>, retryConfiguration: Option<RetryConfiguration>,
                 client: DynamoDbClient, retryCapReached: (nat, nat) -> bool, resumeCapReached: (nat, nat) -> bool)
      requires retryConfiguration.Some? ==> RetryConfig.Valid(retryConfiguration.value)
      ensures Valid() && batch == map[] && writeFailures == 0
      ensures this.deduplicateKeys == deduplicateKeys && this.retryConfiguration == retryConfiguration
      ensures this.client == client
      ensures retryBackoff.maxRetries == if retryConfiguration.None? then 0 else retryConfiguration.value.maxAttempts - 1
      ensures retryBackoff.capReached == retryCapReached
      ensures resumeBackoff.maxRetries == DefaultMaxRetries && resumeBackoff.capReached == resumeCapReached
    {
      this.deduplicateKeys := deduplicateKeys;
      this.retryConfiguration := retryConfiguration;
      this.client := client;
      retryBackoff := BackoffPolicy(
        if retryConfiguration.None? then 0 else retryConfiguration.value.maxAttempts - 1, retryCapReached);
      resumeBackoff := BackoffPolicy(DefaultMaxRetries, resumeCapReached);
      batch := map[];
      writeFailures := 0;
    }

    /** Starts a bundle with an empty batch. */
    method StartBundle()
      modifies this`batch
      ensures Valid() && batch == map[]
    {
      batch := map[];
    }

    /**
     * Adds a request under its identity, replacing an earlier one with the
     * same identity, and flushes when the batch reaches 25 requests.
     */
    method ProcessElement(w: TableWrite) returns (r: Outcome, ghost run: FlushRun)
      requires Valid()
      modifies this`batch, this`writeFailures, client`batchCalls
      ensures Valid()
      ensures var put := Put(old(batch), w, deduplicateKeys);
        |put| < BatchSize ==>
          && batch == put && r == Pass
          && client.batchCalls == old(client.batchCalls) && writeFailures == old(writeFailures)
      ensures var put := Put(old(batch), w, deduplicateKeys);
        |put| >= BatchSize ==>
          && |put| == BatchSize
          && Flushed(put, old(client.batchCalls), old(writeFailures), r, run)
    {
      batch := batch[Identity(w.table, ExtractDeduplicateKeyValues(w.request, deduplicateKeys)) := w];
      if |batch| >= BatchSize {
        r, run := FlushBatch();
      } else {
        r, run := Pass, FlushRun([], |client.batchCalls|, Pass);
      }
    }

    /** Flushes what is left at the end of a bundle. */
    method FinishBundle() returns (r: Outcome, ghost run: FlushRun)
      requires Valid()
      modifies this`batch, this`writeFailures, client`batchCalls
      ensures Valid()
      ensures Flushed(old(batch), old(client.batchCalls), old(writeFailures), r, run)
    {
      r, run := FlushBatch();
    }

    /**
     * Sends the batch grouped by table, then resends whatever the store
     * reports unprocessed while the resume backoff allows; the batch is
     * cleared on every path.
     */
    method FlushBatch() returns (r: Outcome, ghost run: FlushRun)
      requires WellKeyed(batch, deduplicateKeys)
      modifies this`batch, this`writeFailures, client`batchCalls
      ensures Flushed(old(batch), old(client.batchCalls), old(writeFailures), r, run)
    {
      if batch == map[] {
        return Pass, FlushRun([], |client.batchCalls|, Pass);
      }
      WellKeyedInjective(batch, deduplicateKeys);
      var writesPerTable := GroupByTable(batch);
      r, run := WriteResuming(writesPerTable);
      ResumeLoopExtends(client.batchResponse, writesPerTable, |old(client.batchCalls)|, 0,
                        retryConfiguration, retryBackoff, resumeBackoff, []);
      batch := map[];
    }

    /**
     * The resume loop of a flush: sends `writesPerTable`, then what the store
     * left unprocessed, until nothing is left or the resume backoff stops.
     */
    method WriteResuming(writesPerTable: WritesPerTable) returns (r: Outcome, ghost run: FlushRun)
      modifies this`writeFailures, client`batchCalls
      ensures run == ResumeLoop(client.batchResponse, writesPerTable, |old(client.batchCalls)|, 0,
                                retryConfiguration, retryBackoff, resumeBackoff, [])
      ensures r == run.result
      ensures client.batchCalls == old(client.batchCalls) + CallsOf(run.rounds)
      ensures |client.batchCalls| == run.end
      ensures writeFailures == old(writeFailures) + (if r.Fail? then 1 else 0)
    {
      ghost var calls0 := client.batchCalls;
      run := ResumeLoop(client.batchResponse, writesPerTable, |calls0|, 0,
                        retryConfiguration, retryBackoff, resumeBackoff, []);
      ghost var done: seq<Round> := [];
      var writes := writesPerTable;
      var resume := new BackOff(resumeBackoff);
      while true
        invariant resume.policy == resumeBackoff && resume.retries <= resumeBackoff.maxRetries
        invariant writeFailures == old(writeFailures)
        invariant client.batchCalls == calls0 + CallsOf(done)
        invariant run == ResumeLoop(client.batchResponse, writes, |client.batchCalls|, resume.retries,
                                    retryConfiguration, retryBackoff, resumeBackoff, done)
        decreases resumeBackoff.maxRetries - resume.retries
      {
        var finished;
        finished, r, writes, done := ResumeRound(writes, resume, done, calls0, run);
        if finished {
          return;
        }
      }
    }

    /**
     * One pass of the resume do-while: sends `writes` with retries, then
     * either finishes the flush run `run` with its outcome, or asks the
     * resume backoff and, when it grants, goes on with what is unprocessed.
     */
    method ResumeRound(writes: WritesPerTable, resume: BackOff, ghost done: seq<Round>,
                       ghost calls0: seq<WritesPerTable>, ghost run: FlushRun)
      returns (finished: bool, r: Outcome, next: WritesPerTable, ghost rounds: seq<Round>)
      requires resume.policy == resumeBackoff && resume.retries <= resumeBackoff.maxRetries
      requires client.batchCalls == calls0 + CallsOf(done)
      requires run == ResumeLoop(client.batchResponse, writes, |client.batchCalls|, resume.retries,
                                 retryConfiguration, retryBackoff, resumeBackoff, done)
      modifies client`batchCalls, this`writeFailures, resume`retries
      ensures resume.retries <= resumeBackoff.maxRetries
      ensures client.batchCalls == calls0 + CallsOf(rounds)
      ensures !finished ==>
        && writeFailures == old(writeFailures)
        && old(resume.retries) < resume.retries
        && run == ResumeLoop(client.batchResponse, next, |client.batchCalls|, resume.retries,
                             retryConfiguration, retryBackoff, resumeBackoff, rounds)
      ensures finished ==>
        && run.rounds == rounds && r == run.result && run.end == |client.batchCalls|
        && writeFailures == old(writeFailures) + (if r.Fail? then 1 else 0)
    {
      ghost var store, at, resumed := client.batchResponse, |client.batchCalls|, resume.retries;
      var response;
      ghost var retry;
      response, retry := SendRound(writes, done, calls0);
      rounds := done + [Round(writes, retry)];
      if response.Failure? {
        ResumeLoopFails(store, writes, at, resumed, retryConfiguration, retryBackoff, resumeBackoff, done, retry);
        return true, Fail(response.error), writes, rounds;
      }
      next := response.value.unprocessedItems;
      if |next| == 0 {
        ResumeLoopPasses(store, writes, at, resumed, retryConfiguration, retryBackoff, resumeBackoff, done, retry);
        return true, Pass, next, rounds;
      }
      ResumeLoopResumes(store, writes, at, resumed, retryConfiguration, retryBackoff, resumeBackoff, done, retry);
      var granted := resume.Next(|client.batchCalls|);
      if !granted {
        writeFailures := writeFailures + 1;
        return true, Fail(UnprocessedItemsRemaining), next, rounds;
      }
      finished, r := false, Pass;
    }

    /**
     * The write of one round: sends `writes` with retries and adds the
     * round to the call log.
     */
    method SendRound(writes: WritesPerTable, ghost done: seq<Round>, ghost calls0: seq<WritesPerTable>)
      returns (response: Result<BatchWriteItemResponse, WriteError>, ghost retry: RetryRun)
      requires client.batchCalls == calls0 + CallsOf(done)
      modifies client`batchCalls, this`writeFailures
      ensures retry == RetryLoop(client.batchResponse, writes, |old(client.batchCalls)|, 1,
                                 retryConfiguration, retryBackoff)
      ensures response == retry.result
      ensures client.batchCalls == calls0 + CallsOf(done + [Round(writes, retry)])
      ensures |client.batchCalls| == |old(client.batchCalls)| + retry.attempts
      ensures writeFailures == old(writeFailures) + (if response.Failure? then 1 else 0)
    {
      retry := RetryLoop(client.batchResponse, writes, |client.batchCalls|, 1, retryConfiguration, retryBackoff);
      response := WriteWithRetries(writes);
      CallsOfSnoc(done, Round(writes, retry));
      assert client.batchCalls == calls0 + (CallsOf(done) + Repeat(writes, retry.attempts));
    }

    /**
     * Sends one bulk write request, retrying it while the exception may be
     * retried and the retry backoff allows; the failure counter counts a
     * final failure once.
     */
    method WriteWithRetries(request: WritesPerTable) returns (result: Result<BatchWriteItemResponse, WriteError>)
      modifies client`batchCalls, this`writeFailures
      ensures var run := RetryLoop(client.batchResponse, request, |old(client.batchCalls)|, 1,
                                   retryConfiguration, retryBackoff);
        && result == run.result
        && client.batchCalls == old(client.batchCalls) + Repeat(request, run.attempts)
      ensures writeFailures == old(writeFailures) + (if result.Failure? then 1 else 0)
    {
      ghost var at := |client.batchCalls|;
      ghost var whole := RetryLoop(client.batchResponse, request, at, 1, retryConfiguration, retryBackoff);
      var backoff := new BackOff(retryBackoff);
      var attempt: nat := 0;
      while true
        invariant backoff.policy == retryBackoff && backoff.retries == attempt <= retryBackoff.maxRetries
        invariant writeFailures == old(writeFailures)
        invariant client.batchCalls == old(client.batchCalls) + Repeat(request, attempt)
        invariant whole == RetryLoop(client.batchResponse, request, at, attempt + 1, retryConfiguration, retryBackoff)
        decreases retryBackoff.maxRetries - attempt
      {
        attempt := attempt + 1;
        var call := client.BatchWriteItem(request);
        assert Repeat(request, attempt - 1) + [request] == Repeat(request, attempt);
        if call.Returned? {
          return Success(call.response);
        }
        var e := call.exception;
        var granted := false;
        if CanRetry(retryConfiguration, e) {
          granted := backoff.Next(|client.batchCalls|);
        }
        if !granted {
          writeFailures := writeFailures + 1;
          return Failure(if CanRetry(retryConfiguration, e) then RetriesExceeded(attempt, e) else NoRetry(e));
        }
      }
    }
  }
}
