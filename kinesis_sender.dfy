/**
 * The Kinesis message sender: encodes messages into put-records entries, slices them into
 * consecutive batches of at most 500 and sends each batch with a bounded retry loop.
 *
 * The Kinesis client is an oracle: the n-th putRecords call (counting from the client's
 * creation) answers with respond(n), either a response with its failed-record count or the
 * exception that waiting for the response throws. The encoder is a parameter.
 */
module KinesisSender {
  import opened Wrappers
  import opened Channel

  const PutRecordsBatchSize: nat := 500
  const MaxRetries: nat := 15

  /** A record of a putRecords request, as the encoder produces it from a message. */
  datatype PutRecordsRequestEntry = PutRecordsRequestEntry(partitionKey: string, data: string)

  datatype PutRecordsRequest = PutRecordsRequest(streamName: string, records: seq<PutRecordsRequestEntry>)

  /** The answer to one putRecords call: the response, or the exception raised while waiting for it. */
  datatype PutRecordsResponse = Response(failedRecordCount: nat) | CallFailed(error: string)

  /** How sending ends: normally, with RetryLimitExceededException, or with the exception of a call. */
  datatype SendOutcome = Completed | RetryLimitExceeded | SendFailed(error: string)

  /** The answer to putRecords call number `n`. */
  function Answer(respond: nat -> PutRecordsResponse, n: nat): PutRecordsResponse {
    respond(n)
  }

  /** An answer that makes the retry loop try again: a response with failed records. */
  predicate Unsuccessful(r: PutRecordsResponse) {
    r.Response? && r.failedRecordCount > 0
  }

  // ---------------------------------------------------------------------------
  // The pure part

  /** createPutRecordRequestEntries: one entry per message, in order. */
  function CreateEntries(encoder: TextMessage -> PutRecordsRequestEntry, messages: seq<TextMessage>): (r: seq<PutRecordsRequestEntry>)
    ensures |r| == |messages|
    ensures forall i :: 0 <= i < |messages| ==> r[i] == encoder(messages[i])
  {
    if messages == [] then [] else [encoder(messages[0])] + CreateEntries(encoder, messages[1..])
  }

  function Flatten<T>(xss: seq<seq<T>>): seq<T> {
    if xss == [] then [] else xss[0] + Flatten(xss[1..])
  }

  /**
   * Lists.partition: consecutive slices of `size` elements, the last one possibly
   * shorter; no slice is empty and together they are the whole list.
   */
  function Partition<T>(xs: seq<T>, size: nat): (r: seq<seq<T>>)
    requires size > 0
    ensures Flatten(r) == xs
    ensures forall k :: 0 <= k < |r| ==> 0 < |r[k]| <= size
    ensures forall k :: 0 <= k < |r| - 1 ==> |r[k]| == size
    ensures xs == [] <==> r == []
    decreases |xs|
  {
    if xs == [] then []
    else if |xs| <= size then
      assert Flatten([xs]) == xs + Flatten([xs][1..]);
      [xs]
    else
      var rest := Partition(xs[size..], size);
      assert ([xs[..size]] + rest)[1..] == rest;
      [xs[..size]] + rest
  }

  /** The batches doSendBatch sends for `messages`. */
  function Batches(encoder: TextMessage -> PutRecordsRequestEntry, messages: seq<TextMessage>): seq<seq<PutRecordsRequestEntry>> {
    Partition(CreateEntries(encoder, messages), PutRecordsBatchSize)
  }

  function Request(channelName: string, batch: seq<PutRecordsRequestEntry>): PutRecordsRequest {
    PutRecordsRequest(channelName, batch)
  }

  function Repeat<T>(x: T, n: nat): (r: seq<T>)
    ensures |r| == n
  {
    if n == 0 then [] else Repeat(x, n - 1) + [x]
  }

  /** What sending one batch with retries does: the number of putRecords calls it makes and how it ends. */
  datatype BatchAttempts = BatchAttempts(attempts: nat, outcome: SendOutcome)

  /** How the retry loop ends on its last answer: completed, failed with the call's exception, or out of retries. */
  function Ending(last: PutRecordsResponse): SendOutcome {
    match last
    case CallFailed(e) => SendFailed(e)
    case Response(failed) => if failed == 0 then Completed else RetryLimitExceeded
  }

  /**
   * blockingSendBatchWithRetries from call number `at`, after `currentRetry` failed
   * attempts: an answer with failed records means one more attempt unless it was the
   * 15th; any other answer ends the loop.
   */
  function RetryRun(respond: nat -> PutRecordsResponse, at: nat, currentRetry: nat): (r: BatchAttempts)
    requires currentRetry < MaxRetries
    decreases MaxRetries - currentRetry
  {
    if !Unsuccessful(Answer(respond, at)) || currentRetry + 1 >= MaxRetries then
      BatchAttempts(1, Ending(Answer(respond, at)))
    else
      var r := RetryRun(respond, at + 1, currentRetry + 1);
      BatchAttempts(r.attempts + 1, r.outcome)
  }

  /** A batch is sent at least once and at most 15 times. */
  lemma {:induction false} RetryRunAttemptsBounded(respond: nat -> PutRecordsResponse, at: nat, currentRetry: nat)
    requires currentRetry < MaxRetries
    ensures 1 <= RetryRun(respond, at, currentRetry).attempts <= MaxRetries - currentRetry
    decreases MaxRetries - currentRetry
  {
    if Unsuccessful(Answer(respond, at)) && currentRetry + 1 < MaxRetries {
      RetryRunAttemptsBounded(respond, at + 1, currentRetry + 1);
    }
  }

  /** The `count` calls from call number `at` on were all answered with failed records. */
  ghost predicate FailedFrom(respond: nat -> PutRecordsResponse, at: nat, count: nat)
    decreases count
  {
    count == 0 || (Unsuccessful(Answer(respond, at)) && FailedFrom(respond, at + 1, count - 1))
  }

  lemma {:induction false} FailedFromIff(respond: nat -> PutRecordsResponse, at: nat, count: nat)
    ensures FailedFrom(respond, at, count) <==> forall k :: at <= k < at + count ==> Unsuccessful(Answer(respond, k))
    decreases count
  {
    if count > 0 {
      FailedFromIff(respond, at + 1, count - 1);
      if forall k :: at <= k < at + count ==> Unsuccessful(Answer(respond, k)) {
        assert Unsuccessful(Answer(respond, at));
      }
    }
  }

  lemma {:induction false} FailedFromSnoc(respond: nat -> PutRecordsResponse, at: nat, count: nat)
    requires FailedFrom(respond, at, count) && Unsuccessful(Answer(respond, at + count))
    ensures FailedFrom(respond, at, count + 1)
    decreases count
  {
    if count > 0 {
      FailedFromSnoc(respond, at + 1, count - 1);
    }
  }

  /**
   * The retry loop, allowed `limit` more attempts, made `n` calls from call number `at` and
   * ended with `outcome`: every answer but the last had failed records, the last one did
   * not unless it used up the attempts, and the last answer decides the outcome.
   */
  ghost predicate RetriedUntilSettled(respond: nat -> PutRecordsResponse, at: nat, limit: nat, n: nat, outcome: SendOutcome) {
    && 1 <= n <= limit
    && FailedFrom(respond, at, n - 1)
    && (!Unsuccessful(Answer(respond, at + n - 1)) || n == limit)
    && outcome == Ending(Answer(respond, at + n - 1))
  }

  lemma {:induction false} RetryRunOfSettled(respond: nat -> PutRecordsResponse, at: nat, currentRetry: nat, n: nat, outcome: SendOutcome)
    requires currentRetry < MaxRetries && RetriedUntilSettled(respond, at, MaxRetries - currentRetry, n, outcome)
    ensures RetryRun(respond, at, currentRetry) == BatchAttempts(n, outcome)
    decreases n
  {
    if n > 1 {
      RetryRunOfSettled(respond, at + 1, currentRetry + 1, n - 1, outcome);
    }
  }

  lemma {:induction false} SettledOfRetryRun(respond: nat -> PutRecordsResponse, at: nat, currentRetry: nat)
    requires currentRetry < MaxRetries
    ensures var r := RetryRun(respond, at, currentRetry);
            RetriedUntilSettled(respond, at, MaxRetries - currentRetry, r.attempts, r.outcome)
    decreases MaxRetries - currentRetry
  {
    if Unsuccessful(Answer(respond, at)) && currentRetry + 1 < MaxRetries {
      SettledOfRetryRun(respond, at + 1, currentRetry + 1);
    }
  }

  /** The retry loop's spec function and its characterisation agree: RetryRun is the one run that settles. */
  lemma RetryRunIffSettled(respond: nat -> PutRecordsResponse, at: nat, n: nat, outcome: SendOutcome)
    ensures RetriedUntilSettled(respond, at, MaxRetries, n, outcome) <==> RetryRun(respond, at, 0) == BatchAttempts(n, outcome)
  {
    SettledOfRetryRun(respond, at, 0);
    if RetriedUntilSettled(respond, at, MaxRetries, n, outcome) {
      RetryRunOfSettled(respond, at, 0, n, outcome);
    }
  }

  /** What sending a list of batches does: how many calls each batch that was tried took, and how it ends. */
  datatype BatchRun = BatchRun(attempts: seq<nat>, outcome: SendOutcome)

  function Continued(earlier: seq<nat>, run: BatchRun): BatchRun {
    BatchRun(earlier + run.attempts, run.outcome)
  }

  /**
   * The retry loop of a batch whose first call is call number `at`. Which records a batch
   * holds does not change the client's answers, so one function serves every batch.
   */
  function RunsOf(respond: nat -> PutRecordsResponse): nat -> BatchAttempts {
    (at: nat) => RetryRun(respond, at, 0)
  }

  /**
   * The forEach over the batches, the first one sent from call number `at`, each with the
   * retry loop `runs`: a batch that does not complete ends it with its exception.
   */
  function SendBatches(runs: nat -> BatchAttempts, at: nat, batches: seq<seq<PutRecordsRequestEntry>>): (r: BatchRun)
    ensures |r.attempts| <= |batches|
    decreases |batches|
  {
    if batches == [] then BatchRun([], Completed)
    else
      var first := runs(at);
      if first.outcome != Completed then BatchRun([first.attempts], first.outcome)
      else Continued([first.attempts], SendBatches(runs, at + first.attempts, batches[1..]))
  }

  /** The batches tried with these attempt counts each completed, one after the other, from call number `at`. */
  ghost predicate CompletedInOrder(runs: nat -> BatchAttempts, at: nat, attempts: seq<nat>)
    decreases |attempts|
  {
    attempts == []
    || (runs(at) == BatchAttempts(attempts[0], Completed)
        && CompletedInOrder(runs, at + attempts[0], attempts[1..]))
  }

  lemma {:induction false} CompletedInOrderSnoc(runs: nat -> BatchAttempts, at: nat, attempts: seq<nat>, n: nat)
    requires CompletedInOrder(runs, at, attempts)
    requires runs(at + Sum(attempts)) == BatchAttempts(n, Completed)
    ensures CompletedInOrder(runs, at, attempts + [n])
    ensures Sum(attempts + [n]) == Sum(attempts) + n
    decreases |attempts|
  {
    if attempts == [] {
      assert ([n])[1..] == [];
    } else {
      assert (attempts + [n])[1..] == attempts[1..] + [n];
      CompletedInOrderSnoc(runs, at + attempts[0], attempts[1..], n);
    }
  }

  /** Once some batches have completed in order, the run goes on from the call after them with the remaining batches. */
  lemma {:induction false} SendBatchesAfter(runs: nat -> BatchAttempts, at: nat,
                                            batches: seq<seq<PutRecordsRequestEntry>>, attempts: seq<nat>)
    requires |attempts| <= |batches| && CompletedInOrder(runs, at, attempts)
    ensures SendBatches(runs, at, batches)
            == Continued(attempts, SendBatches(runs, at + Sum(attempts), batches[|attempts|..]))
    decreases |attempts|
  {
    if attempts == [] {
      assert batches[0..] == batches;
      assert [] + SendBatches(runs, at, batches).attempts == SendBatches(runs, at, batches).attempts;
    } else {
      var a, tail := attempts[0], attempts[1..];
      var later := SendBatches(runs, at + Sum(attempts), batches[|attempts|..]);
      SendBatchesAfter(runs, at + a, batches[1..], tail);
      assert at + a + Sum(tail) == at + Sum(attempts);
      assert batches[1..][|tail|..] == batches[|attempts|..];
      assert SendBatches(runs, at + a, batches[1..]) == BatchRun(tail + later.attempts, later.outcome);
      AppendAssoc([a], tail, later.attempts);
      assert [a] + tail == attempts;
    }
  }


  /** The requests a run makes: each batch that was tried, unchanged, as often as it was attempted, in batch order. */
  function Requests(channelName: string, batches: seq<seq<PutRecordsRequestEntry>>, attempts: seq<nat>): seq<PutRecordsRequest>
    requires |attempts| <= |batches|
  {
    if attempts == [] then []
    else Requests(channelName, batches, attempts[..|attempts| - 1])
         + Repeat(Request(channelName, batches[|attempts| - 1]), attempts[|attempts| - 1])
  }

  /** A run whose batches so far completed in order and whose next batch does not complete ends with that batch. */
  lemma SendBatchesStops(runs: nat -> BatchAttempts, at: nat, batches: seq<seq<PutRecordsRequestEntry>>,
                         attempts: seq<nat>, n: nat, outcome: SendOutcome)
    requires |attempts| < |batches| && CompletedInOrder(runs, at, attempts)
    requires runs(at + Sum(attempts)) == BatchAttempts(n, outcome) && outcome != Completed
    ensures SendBatches(runs, at, batches) == BatchRun(attempts + [n], outcome)
  {
    SendBatchesAfter(runs, at, batches, attempts);
    assert SendBatches(runs, at + Sum(attempts), batches[|attempts|..]) == BatchRun([n], outcome);
  }

  /** A run whose batches all completed in order completes, with those attempts. */
  lemma SendBatchesFinishes(runs: nat -> BatchAttempts, at: nat, batches: seq<seq<PutRecordsRequestEntry>>, attempts: seq<nat>)
    requires |attempts| == |batches| && CompletedInOrder(runs, at, attempts)
    ensures SendBatches(runs, at, batches) == BatchRun(attempts, Completed)
  {
    SendBatchesAfter(runs, at, batches, attempts);
    assert batches[|attempts|..] == [];
    assert attempts + [] == attempts;
  }

  /** One more batch tried after batches that completed in order: either it completes too, or the run ends with it. */
  lemma AfterBatch(runs: nat -> BatchAttempts, at: nat, batches: seq<seq<PutRecordsRequestEntry>>,
                   attempts: seq<nat>, n: nat, outcome: SendOutcome)
    requires |attempts| < |batches| && CompletedInOrder(runs, at, attempts)
    requires runs(at + Sum(attempts)) == BatchAttempts(n, outcome)
    ensures outcome != Completed ==> SendBatches(runs, at, batches).attempts == attempts + [n]
                                     && SendBatches(runs, at, batches).outcome == outcome
    ensures outcome == Completed ==> CompletedInOrder(runs, at, attempts + [n]) && Sum(attempts + [n]) == Sum(attempts) + n
  {
    if outcome != Completed {
      SendBatchesStops(runs, at, batches, attempts, n, outcome);
    } else {
      CompletedInOrderSnoc(runs, at, attempts, n);
    }
  }

  /** The requests of one more batch, sent `n` times, follow those of the batches before it. */
  lemma RequestsAfterBatch(channelName: string, batches: seq<seq<PutRecordsRequestEntry>>, attempts: seq<nat>, n: nat,
                           before: seq<PutRecordsRequest>, log: seq<PutRecordsRequest>, after: seq<PutRecordsRequest>)
    requires |attempts| < |batches|
    requires log == before + Requests(channelName, batches, attempts)
    requires after == log + Repeat(Request(channelName, batches[|attempts|]), n)
    ensures after == before + Requests(channelName, batches, attempts + [n])
  {
    assert (attempts + [n])[..|attempts|] == attempts;
  }

  lemma AppendAssoc<T>(a: seq<T>, b: seq<T>, c: seq<T>)
    ensures (a + b) + c == a + (b + c)
  {
  }

  function Sum(xs: seq<nat>): nat {
    if xs == [] then 0 else xs[0] + Sum(xs[1..])
  }

  // ---------------------------------------------------------------------------
  // The client and the sender

  /** The Kinesis client: the oracle of its answers and the log of the requests it was sent. */
  class KinesisClient {
    const respond: nat -> PutRecordsResponse
    var requests: seq<PutRecordsRequest>

    constructor (respond: nat -> PutRecordsResponse)
      ensures this.respond == respond && requests == []
    {
      this.respond := respond;
      requests := [];
    }

    /** putRecords(request) followed by waiting for the answer. */
    method PutRecords(request: PutRecordsRequest) returns (response: PutRecordsResponse)
      modifies this
      ensures requests == old(requests) + [request]
      ensures response == Answer(respond, |old(requests)|)
    {
      response := Answer(respond, |requests|);
      requests := requests + [request];
    }
  }

  class KinesisMessageSender {
    const channelName: string
    const kinesisAsyncClient: KinesisClient
    const encoder: TextMessage -> PutRecordsRequestEntry

    constructor (channelName: string, kinesisClient: KinesisClient, encoder: TextMessage -> PutRecordsRequestEntry)
      ensures this.channelName == channelName && kinesisAsyncClient == kinesisClient && this.encoder == encoder
    {
      this.channelName := channelName;
      kinesisAsyncClient := kinesisClient;
      this.encoder := encoder;
    }

    /** doSend(message): exactly doSendBatch of the one-message stream. */
    method DoSend(message: TextMessage) returns (outcome: SendOutcome)
      modifies kinesisAsyncClient
      ensures var run := SendBatches(RunsOf(kinesisAsyncClient.respond), |old(kinesisAsyncClient.requests)|, Batches(encoder, [message]));
              && outcome == run.outcome
              && kinesisAsyncClient.requests == old(kinesisAsyncClient.requests) + Requests(channelName, Batches(encoder, [message]), run.attempts)
    {
      outcome := DoSendBatch([message]);
    }

    /** doSendBatch: encodes the messages and, unless there are none, sends their batches one after the other. */
    method DoSendBatch(messageStream: seq<TextMessage>) returns (outcome: SendOutcome)
      modifies kinesisAsyncClient
      ensures var run := SendBatches(RunsOf(kinesisAsyncClient.respond), |old(kinesisAsyncClient.requests)|, Batches(encoder, messageStream));
              && outcome == run.outcome
              && kinesisAsyncClient.requests == old(kinesisAsyncClient.requests) + Requests(channelName, Batches(encoder, messageStream), run.attempts)
    {
      var entries := CreateEntries(encoder, messageStream);
      outcome := Completed;
      if entries != [] {
        outcome := ForEachBatch(Partition(entries, PutRecordsBatchSize), RunsOf(kinesisAsyncClient.respond));
      } else {
        assert Batches(encoder, messageStream) == [];
        assert kinesisAsyncClient.requests == old(kinesisAsyncClient.requests) + [];
      }
    }

    /**
     * The forEach of blockingSendBatchWithRetries over the batches: the exception of one
     * batch ends it. `runs` is the retry loop of a batch by its first call number.
     */
    method ForEachBatch(batches: seq<seq<PutRecordsRequestEntry>>, ghost runs: nat -> BatchAttempts) returns (outcome: SendOutcome)
      requires forall at {:trigger RetryRun(kinesisAsyncClient.respond, at, 0)} :: runs(at) == RetryRun(kinesisAsyncClient.respond, at, 0)
      modifies kinesisAsyncClient
      ensures var run := SendBatches(runs, |old(kinesisAsyncClient.requests)|, batches);
              && outcome == run.outcome
              && kinesisAsyncClient.requests == old(kinesisAsyncClient.requests) + Requests(channelName, batches, run.attempts)
    {
      ghost var start := |kinesisAsyncClient.requests|;
      ghost var attempts: seq<nat> := [];
      outcome := Completed;
      var i := 0;
      while i < |batches|
        invariant 0 <= i <= |batches| && |attempts| == i
        invariant |kinesisAsyncClient.requests| == start + Sum(attempts)
        invariant kinesisAsyncClient.requests == old(kinesisAsyncClient.requests) + Requests(channelName, batches, attempts)
        invariant CompletedInOrder(runs, start, attempts) && outcome == Completed
      {
        ghost var log := kinesisAsyncClient.requests;
        outcome := BlockingSendBatchWithRetries(batches[i]);
        ghost var n := |kinesisAsyncClient.requests| - |log|;
        RetryRunOfSettled(kinesisAsyncClient.respond, |log|, 0, n, outcome);
        AfterBatch(runs, start, batches, attempts, n, outcome);
        RequestsAfterBatch(channelName, batches, attempts, n, old(kinesisAsyncClient.requests), log, kinesisAsyncClient.requests);
        if outcome != Completed {
          return;
        }
        attempts := attempts + [n];
        i := i + 1;
      }
      SendBatchesFinishes(runs, start, batches, attempts);
      assert SendBatches(runs, start, batches).attempts == attempts;
    }

    /** blockingSendBatchWithRetries: sends the same batch until no record fails; the 15th failed attempt gives up. */
    method BlockingSendBatchWithRetries(batch: seq<PutRecordsRequestEntry>) returns (outcome: SendOutcome)
      modifies kinesisAsyncClient
      ensures |old(kinesisAsyncClient.requests)| < |kinesisAsyncClient.requests|
      ensures var at := |old(kinesisAsyncClient.requests)|;
              var n := |kinesisAsyncClient.requests| - at;
              && RetriedUntilSettled(kinesisAsyncClient.respond, at, MaxRetries, n, outcome)
              && kinesisAsyncClient.requests == old(kinesisAsyncClient.requests) + Repeat(Request(channelName, batch), n)
    {
      ghost var respond := kinesisAsyncClient.respond;
      ghost var start := |kinesisAsyncClient.requests|;
      var currentRetry := 0;
      while true
        invariant 0 <= currentRetry < MaxRetries
        invariant kinesisAsyncClient.requests == old(kinesisAsyncClient.requests) + Repeat(Request(channelName, batch), currentRetry)
        invariant FailedFrom(respond, start, currentRetry)
        decreases MaxRetries - currentRetry
      {
        var successful, failure := BlockingSendBatch(batch);
        if failure.Some? {
          outcome := SendFailed(failure.value);
          return;
        }
        if successful {
          outcome := Completed;
          return;
        }
        FailedFromSnoc(respond, start, currentRetry);
        currentRetry := currentRetry + 1;
        if currentRetry >= MaxRetries {
          outcome := RetryLimitExceeded;
          return;
        }
        // Thread.sleep(RETRY_DELAY_MS)
      }
    }

    /** blockingSendBatch: one putRecords call; successful iff no record failed, `failure` the exception of the call. */
    method BlockingSendBatch(batch: seq<PutRecordsRequestEntry>) returns (successful: bool, failure: Option<string>)
      modifies kinesisAsyncClient
      ensures var response := Answer(kinesisAsyncClient.respond, |old(kinesisAsyncClient.requests)|);
              && kinesisAsyncClient.requests == old(kinesisAsyncClient.requests) + [Request(channelName, batch)]
              && (response.CallFailed? ==> failure == Some(response.error))
              && (response.Response? ==> failure.None? && (successful <==> response.failedRecordCount == 0))
    {
      var response := kinesisAsyncClient.PutRecords(Request(channelName, batch));
      match response
      case CallFailed(e) =>
        successful, failure := false, Some(e);
      case Response(failed) =>
        successful, failure := failed == 0, None;
    }
  }

  // ---------------------------------------------------------------------------
  // Properties

  /** An empty message stream makes no putRecords call and completes normally. */
  lemma EmptyInputSendsNothing(encoder: TextMessage -> PutRecordsRequestEntry, channelName: string,
                               respond: nat -> PutRecordsResponse, at: nat)
    ensures Batches(encoder, []) == []
    ensures var run := SendBatches(RunsOf(respond), at, Batches(encoder, []));
            run == BatchRun([], Completed) && Requests(channelName, Batches(encoder, []), run.attempts) == []
  {
  }

  /** doSend(m) sends a single batch holding m's one entry. */
  lemma SingleMessageIsOneBatch(encoder: TextMessage -> PutRecordsRequestEntry, m: TextMessage)
    ensures Batches(encoder, [m]) == [[encoder(m)]]
  {
    var entries := CreateEntries(encoder, [m]);
    assert entries == [encoder(m)];
  }

  /**
   * The retry limit is reached exactly when all 15 attempts of a batch are answered with
   * failed records; the batch was then sent 15 times.
   */
  lemma RetryLimitIffAllAttemptsFail(respond: nat -> PutRecordsResponse, at: nat)
    ensures var r := RetryRun(respond, at, 0);
            && (r.outcome == RetryLimitExceeded <==> forall k :: at <= k < at + MaxRetries ==> Unsuccessful(Answer(respond, k)))
            && (r.outcome == RetryLimitExceeded ==> r.attempts == MaxRetries)
  {
    var r := RetryRun(respond, at, 0);
    SettledOfRetryRun(respond, at, 0);
    SettledRetryLimit(respond, at, r.attempts, r.outcome);
  }

  lemma SettledRetryLimit(respond: nat -> PutRecordsResponse, at: nat, n: nat, outcome: SendOutcome)
    requires RetriedUntilSettled(respond, at, MaxRetries, n, outcome)
    ensures outcome == RetryLimitExceeded <==> forall k :: at <= k < at + MaxRetries ==> Unsuccessful(Answer(respond, k))
    ensures outcome == RetryLimitExceeded ==> n == MaxRetries
  {
    var last := at + n - 1;
    FailedFromIff(respond, at, n - 1);
    if outcome == RetryLimitExceeded {
      assert Unsuccessful(Answer(respond, last));
      forall k | at <= k < at + MaxRetries ensures Unsuccessful(Answer(respond, k)) {
        if k < last {
          assert at <= k < at + (n - 1);
        }
      }
    }
    if forall k :: at <= k < at + MaxRetries ==> Unsuccessful(Answer(respond, k)) {
      assert Unsuccessful(Answer(respond, last));
    }
  }

  /** A batch completes exactly when some call is answered with no failed record before the retry limit and every call before it had failed records. */
  lemma RetryRunCompletes(respond: nat -> PutRecordsResponse, at: nat)
    ensures RetryRun(respond, at, 0).outcome == Completed
            <==> exists last :: at <= last < at + MaxRetries && Answer(respond, last) == Response(0)
                                && forall k :: at <= k < last ==> Unsuccessful(Answer(respond, k))
  {
    var r := RetryRun(respond, at, 0);
    if r.outcome == Completed {
      SettledOfRetryRun(respond, at, 0);
      SettledCompletes(respond, at, r.attempts, r.outcome);
    }
    forall last | at <= last < at + MaxRetries && Answer(respond, last) == Response(0)
                  && (forall k :: at <= k < last ==> Unsuccessful(Answer(respond, k)))
      ensures r.outcome == Completed
    {
      SettledAtFirstSuccess(respond, at, last);
      RetryRunOfSettled(respond, at, 0, last - at + 1, Completed);
    }
  }

  lemma SettledAtFirstSuccess(respond: nat -> PutRecordsResponse, at: nat, last: nat)
    requires at <= last < at + MaxRetries && Answer(respond, last) == Response(0)
    requires forall k :: at <= k < last ==> Unsuccessful(Answer(respond, k))
    ensures RetriedUntilSettled(respond, at, MaxRetries, last - at + 1, Completed)
  {
    FailedFromIff(respond, at, last - at);
  }

  lemma SettledCompletes(respond: nat -> PutRecordsResponse, at: nat, n: nat, outcome: SendOutcome)
    requires RetriedUntilSettled(respond, at, MaxRetries, n, outcome) && outcome == Completed
    ensures Answer(respond, at + n - 1) == Response(0)
    ensures forall k :: at <= k < at + n - 1 ==> Unsuccessful(Answer(respond, k))
  {
    FailedFromIff(respond, at, n - 1);
  }

  /**
   * What a run of the batches is: either every batch completed, one after the other, or
   * the batches before the last one tried completed in order and the last one tried ended
   * the run with its outcome.
   */
  ghost predicate BatchesSettled(runs: nat -> BatchAttempts, at: nat, batches: seq<seq<PutRecordsRequestEntry>>,
                                 attempts: seq<nat>, outcome: SendOutcome) {
    if outcome == Completed then |attempts| == |batches| && CompletedInOrder(runs, at, attempts)
    else
      && 1 <= |attempts| <= |batches|
      && CompletedInOrder(runs, at, attempts[..|attempts| - 1])
      && runs(at + Sum(attempts[..|attempts| - 1])) == BatchAttempts(attempts[|attempts| - 1], outcome)
  }

  /** A batch that completes, put in front of a settled run, gives a settled run. */
  lemma SettledPrepend(runs: nat -> BatchAttempts, at: nat, batches: seq<seq<PutRecordsRequestEntry>>,
                       a: nat, attempts: seq<nat>, outcome: SendOutcome)
    requires batches != [] && runs(at) == BatchAttempts(a, Completed)
    requires BatchesSettled(runs, at + a, batches[1..], attempts, outcome)
    ensures BatchesSettled(runs, at, batches, [a] + attempts, outcome)
  {
    if outcome != Completed {
      var k := |attempts| - 1;
      var prefix := attempts[..k];
      assert ([a] + attempts)[..k + 1] == [a] + prefix;
      assert ([a] + prefix)[1..] == prefix;
      assert Sum([a] + prefix) == a + Sum(prefix);
    } else {
      assert ([a] + attempts)[1..] == attempts;
    }
  }

  lemma {:induction false} SettledOfSendBatches(runs: nat -> BatchAttempts, at: nat, batches: seq<seq<PutRecordsRequestEntry>>)
    ensures var run := SendBatches(runs, at, batches);
            BatchesSettled(runs, at, batches, run.attempts, run.outcome)
    decreases |batches|
  {
    var run := SendBatches(runs, at, batches);
    if batches != [] {
      var first := runs(at);
      if first.outcome != Completed {
        assert run == BatchRun([first.attempts], first.outcome);
        assert run.attempts[..0] == [] && Sum([]) == 0;
      } else {
        var a := first.attempts;
        var rest := SendBatches(runs, at + a, batches[1..]);
        SettledOfSendBatches(runs, at + a, batches[1..]);
        SettledPrepend(runs, at, batches, a, rest.attempts, rest.outcome);
        assert run == BatchRun([a] + rest.attempts, rest.outcome);
      }
    }
  }

  /** The forEach's spec function and its characterisation agree: SendBatches is the one run that settles. */
  lemma SendBatchesIffSettled(runs: nat -> BatchAttempts, at: nat, batches: seq<seq<PutRecordsRequestEntry>>,
                              attempts: seq<nat>, outcome: SendOutcome)
    ensures BatchesSettled(runs, at, batches, attempts, outcome) <==> SendBatches(runs, at, batches) == BatchRun(attempts, outcome)
  {
    SettledOfSendBatches(runs, at, batches);
    if BatchesSettled(runs, at, batches, attempts, outcome) {
      if outcome == Completed {
        SendBatchesFinishes(runs, at, batches, attempts);
      } else {
        var k := |attempts| - 1;
        SendBatchesStops(runs, at, batches, attempts[..k], attempts[k], outcome);
        assert attempts[..k] + [attempts[k]] == attempts;
      }
    }
  }
}
