/**
 * KinesisAutoConfiguration.DefaultLoggingRetryCondition: the retry condition installed in the
 * Kinesis client's retry policy. It logs every retry attempt at a level chosen from the number
 * of retries so far, and leaves the decision itself to the SDK's default retry condition.
 */
module RetryCondition {
  import opened Wrappers

  /** A Java Throwable, as far as the condition looks at it: its message and its cause, either may be null. */
  datatype Throwable = Throwable(message: Option<string>, cause: Option<Throwable>)

  /** What the condition reads from the SDK's RetryPolicyContext. */
  datatype RetryPolicyContext = RetryPolicyContext(
    operationName: Option<string>,
    serviceName: Option<string>,
    retriesAttempted: int,
    exception: Option<Throwable>)

  datatype LogLevel = Info | Warn | Error

  /** The two log texts, kept structured instead of formatted. */
  datatype LogMessage =
      /** "'<operation>' request to '<service>' failed with exception on try <n>: <message>" */
    | FailedWithException(operationName: Option<string>, serviceName: Option<string>, tryNumber: int,
                          exceptionMessage: Option<string>)
      /** "'<operation>' request to '<service>' failed without exception on try <n>:" */
    | FailedWithoutException(operationName: Option<string>, serviceName: Option<string>, tryNumber: int)

  datatype LogEntry = LogEntry(level: LogLevel, message: LogMessage)

  /** The thresholds kinesisRetryPolicy() configures: warn from 5 retries on, error from 10 on. */
  const ConfiguredWarnCount := 5
  const ConfiguredErrorCount := 10

  /** The Throwable and its causes, outermost first. */
  function CauseChain(t: Option<Throwable>): (r: seq<Throwable>)
    ensures t.None? <==> r == []
    ensures t.Some? ==> r[0] == t.value
  {
    match t
    case None => []
    case Some(e) => [e] + CauseChain(e.cause)
  }

  /** findExceptionMessage: the message of the throwable, or else of its cause, recursively; null when none has one. */
  function FindExceptionMessage(t: Option<Throwable>): (r: Option<string>)
    ensures t.None? ==> r.None?
    ensures t.Some? && t.value.message.Some? ==> r == t.value.message
  {
    match t
    case None => None
    case Some(e) =>
      if e.message.Some? then e.message else FindExceptionMessage(e.cause)
  }

  /** No throwable in the chain carries a message. */
  predicate NoneHasMessage(chain: seq<Throwable>) {
    forall i :: 0 <= i < |chain| ==> chain[i].message.None?
  }

  /**
   * findExceptionMessage returns the message of the first throwable along the cause chain that
   * has one, and null exactly when no throwable in the chain has a message.
   */
  lemma {:induction false} FindExceptionMessageIsFirstInChain(t: Option<Throwable>)
    ensures FindExceptionMessage(t).None? <==> NoneHasMessage(CauseChain(t))
    ensures FindExceptionMessage(t).Some? ==>
              exists i :: 0 <= i < |CauseChain(t)| && CauseChain(t)[i].message == FindExceptionMessage(t)
                          && NoneHasMessage(CauseChain(t)[..i])
  {
    match t
    case None =>
    case Some(e) =>
      var chain := CauseChain(t);
      var rest := CauseChain(e.cause);
      assert chain == [e] + rest;
      if e.message.Some? {
        assert chain[0].message.Some?;
        assert !NoneHasMessage(chain);
        assert chain[..0] == [];
      } else {
        assert FindExceptionMessage(t) == FindExceptionMessage(e.cause);
        FindExceptionMessageIsFirstInChain(e.cause);
        if FindExceptionMessage(e.cause).Some? {
          var i :| 0 <= i < |rest| && rest[i].message == FindExceptionMessage(e.cause)
                   && NoneHasMessage(rest[..i]);
          assert chain[i + 1] == rest[i];
          var prefix := chain[..i + 1];
          assert prefix == [e] + rest[..i];
          assert NoneHasMessage(prefix) by {
            forall j | 0 <= j < |prefix|
              ensures prefix[j].message.None?
            {
              if j > 0 {
                assert prefix[j] == rest[..i][j - 1];
              }
            }
          }
          assert !NoneHasMessage(chain) by {
            assert chain[i + 1].message.Some?;
          }
        } else {
          assert NoneHasMessage(chain) by {
            forall k | 0 <= k < |chain|
              ensures chain[k].message.None?
            {
              if k > 0 {
                assert chain[k] == rest[k - 1];
              }
            }
          }
        }
      }
  }

  datatype DefaultLoggingRetryCondition = DefaultLoggingRetryCondition(warnCount: int, errorCount: int) {

    /** The level logRetryAttempt logs at: error from errorCount retries on, else warn from warnCount on, else info. */
    function Level(retriesAttempted: int): (r: LogLevel)
      ensures r == Error <==> retriesAttempted >= errorCount
      ensures r == Warn <==> warnCount <= retriesAttempted < errorCount
      ensures r == Info <==> retriesAttempted < warnCount && retriesAttempted < errorCount
    {
      if retriesAttempted >= errorCount then Error
      else if retriesAttempted >= warnCount then Warn
      else Info
    }

    /** logRetryAttempt: the text names the exception's message exactly when the context holds an exception. */
    function LogRetryAttempt(c: RetryPolicyContext): (r: LogEntry)
      ensures r.message.FailedWithException? <==> c.exception.Some?
      ensures r.message.FailedWithException? ==> r.message.exceptionMessage == FindExceptionMessage(c.exception)
      ensures r.message.operationName == c.operationName && r.message.serviceName == c.serviceName
      ensures r.message.tryNumber == c.retriesAttempted
      ensures r.level == Level(c.retriesAttempted)
    {
      var message :=
        if c.exception.Some? then
          FailedWithException(c.operationName, c.serviceName, c.retriesAttempted, FindExceptionMessage(c.exception))
        else
          FailedWithoutException(c.operationName, c.serviceName, c.retriesAttempted);
      LogEntry(Level(c.retriesAttempted), message)
    }

    /**
     * shouldRetry: logs the attempt and answers what the SDK's default retry condition
     * (`defaultCondition`) answers; the logging has no say in the decision.
     */
    function ShouldRetry(c: RetryPolicyContext, defaultCondition: RetryPolicyContext -> bool): (r: (bool, LogEntry))
      ensures r.0 == defaultCondition(c)
      ensures r.1 == LogRetryAttempt(c)
    {
      (defaultCondition(c), LogRetryAttempt(c))
    }
  }

  /** With the configured thresholds, tries up to 4 log at info, 5 to 9 at warn, and 10 or more at error. */
  lemma ConfiguredLevels(retriesAttempted: int)
    ensures var condition := DefaultLoggingRetryCondition(ConfiguredWarnCount, ConfiguredErrorCount);
            && (retriesAttempted <= 4 ==> condition.Level(retriesAttempted) == Info)
            && (5 <= retriesAttempted <= 9 ==> condition.Level(retriesAttempted) == Warn)
            && (retriesAttempted >= 10 ==> condition.Level(retriesAttempted) == Error)
  {
  }

  /** Raising the retry count never lowers the level, as long as warnCount <= errorCount. */
  lemma LevelMonotone(condition: DefaultLoggingRetryCondition, fewer: int, more: int)
    requires condition.warnCount <= condition.errorCount && fewer <= more
    ensures Rank(condition.Level(fewer)) <= Rank(condition.Level(more))
  {
  }

  function Rank(level: LogLevel): nat {
    match level
    case Info => 0
    case Warn => 1
    case Error => 2
  }
}
