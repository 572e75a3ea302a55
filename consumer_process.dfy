/**
 * EventSourceConsumerProcess: pairs every event consumer with an event source of the same
 * stream name, sizes a worker pool by the pairs found, submits one task per matched source
 * and raises a shared stop flag on shutdown. The threads themselves are not modelled: the
 * pool is a value recording its size, the tasks submitted to it and whether it was shut down.
 */
module ConsumerProcess {
  import opened Wrappers

  /** An event source; `id` stands for Java object identity, by which the multimap tells sources apart. */
  datatype EventSource = EventSource(id: nat, streamName: string)

  /** An event consumer interested in one stream; `id` stands for its object identity. */
  datatype EventConsumer = EventConsumer(id: nat, streamName: string)

  /** One (source, consumer) entry of the LinkedHashMultimap. */
  type Pairing = (EventSource, EventConsumer)

  /** A submitted worker task: consume `source`, delegating each record to `consumers` in order. */
  datatype Task = Task(source: EventSource, consumers: seq<EventConsumer>)

  /** The fixed thread pool: its size, the tasks submitted so far and whether shutdownNow was called. */
  datatype ExecutorService = FixedThreadPool(nThreads: nat, submitted: seq<Task>, shutdownRequested: bool)

  predicate NoDuplicates<T(==)>(s: seq<T>) {
    forall i, j :: 0 <= i < j < |s| ==> s[i] != s[j]
  }

  /**
   * `filter(es -> es.getStreamName().equals(streamName)).findAny()` on the sequential stream of
   * sources: the first source of that stream name, or nothing when none has it.
   */
  function FindAny(sources: seq<EventSource>, streamName: string): (r: Option<EventSource>)
    ensures r.None? <==> forall i :: 0 <= i < |sources| ==> sources[i].streamName != streamName
    ensures r.Some? ==> r.value in sources && r.value.streamName == streamName
    ensures r.Some? ==> exists i :: 0 <= i < |sources| && sources[i] == r.value
                                    && forall j :: 0 <= j < i ==> sources[j].streamName != streamName
  {
    if sources == [] then None
    else if sources[0].streamName == streamName then
      Some(sources[0])
    else
      var r := FindAny(sources[1..], streamName);
      assert forall i :: 1 <= i < |sources| ==> sources[i] == sources[1..][i - 1];
      if r.Some? then
        ghost var i :| 0 <= i < |sources[1..]| && sources[1..][i] == r.value
                      && forall j :: 0 <= j < i ==> sources[1..][j].streamName != streamName;
        assert sources[i + 1] == r.value;
        assert forall j :: 0 <= j < i + 1 ==> sources[j].streamName != streamName by {
          forall j | 0 <= j < i + 1
            ensures sources[j].streamName != streamName
          {
            if j > 0 {
              assert sources[j] == sources[1..][j - 1];
            }
          }
        }
        r
      else
        r
  }

  /** LinkedHashMultimap.put: a pairing already present is not added again; a new one goes last. */
  function Put(multimap: seq<Pairing>, p: Pairing): (r: seq<Pairing>)
    ensures forall q :: q in r <==> q in multimap || q == p
    ensures NoDuplicates(multimap) ==> NoDuplicates(r)
    ensures multimap <= r && |r| <= |multimap| + 1
  {
    if p in multimap then multimap else multimap + [p]
  }

  /**
   * The multimap after matching `consumers` in order: each consumer is put together with the
   * source findAny returns for its stream name, and left out when there is none.
   */
  function Matched(initial: seq<Pairing>, sources: seq<EventSource>, consumers: seq<EventConsumer>): seq<Pairing>
    decreases |consumers|
  {
    if consumers == [] then initial
    else
      var before := Matched(initial, sources, consumers[..|consumers| - 1]);
      var consumer := consumers[|consumers| - 1];
      match FindAny(sources, consumer.streamName)
      case None => before
      case Some(source) => Put(before, (source, consumer))
  }

  /** The distinct sources of the multimap in first-insertion order: its keySet(). */
  function Keys(multimap: seq<Pairing>): seq<EventSource>
    decreases |multimap|
  {
    if multimap == [] then []
    else
      var keys := Keys(multimap[..|multimap| - 1]);
      var source := multimap[|multimap| - 1].0;
      if source in keys then keys else keys + [source]
  }

  /** get(source): the consumers put together with `source`, in insertion order. */
  function ConsumersOf(multimap: seq<Pairing>, source: EventSource): seq<EventConsumer>
    decreases |multimap|
  {
    if multimap == [] then []
    else
      var consumers := ConsumersOf(multimap[..|multimap| - 1], source);
      var last := multimap[|multimap| - 1];
      if last.0 == source then consumers + [last.1] else consumers
  }

  /** The task init submits for each source of `keys`, in that order. */
  function TasksFor(multimap: seq<Pairing>, keys: seq<EventSource>): (r: seq<Task>)
    ensures |r| == |keys|
    ensures forall i :: 0 <= i < |keys| ==> r[i] == Task(keys[i], ConsumersOf(multimap, keys[i]))
  {
    seq(|keys|, i requires 0 <= i < |keys| => Task(keys[i], ConsumersOf(multimap, keys[i])))
  }

  /** All tasks init submits: one per key of the multimap. */
  function Tasks(multimap: seq<Pairing>): seq<Task> {
    TasksFor(multimap, Keys(multimap))
  }

  /** Submitting to a pool that may be absent; on an absent one nothing is recorded. */
  function Submitted(executor: Option<ExecutorService>, tasks: seq<Task>): Option<ExecutorService> {
    match executor
    case None => None
    case Some(e) => Some(e.(submitted := e.submitted + tasks))
  }

  /**
   * A pairing is in the matched multimap exactly when it was there before, or its consumer is
   * one of `consumers` and its source is the first source of that consumer's stream name.
   */
  lemma {:induction false} MatchedIff(initial: seq<Pairing>, sources: seq<EventSource>,
                                      consumers: seq<EventConsumer>, p: Pairing)
    ensures p in Matched(initial, sources, consumers)
            <==> p in initial || (p.1 in consumers && FindAny(sources, p.1.streamName) == Some(p.0))
    decreases |consumers|
  {
    if consumers != [] {
      var prefix := consumers[..|consumers| - 1];
      MatchedIff(initial, sources, prefix, p);
      assert consumers == prefix + [consumers[|consumers| - 1]];
    }
  }

  /** Matching appends to the multimap, keeps what was there in place, and never duplicates a pairing. */
  lemma {:induction false} MatchedExtends(initial: seq<Pairing>, sources: seq<EventSource>,
                                          consumers: seq<EventConsumer>)
    ensures initial <= Matched(initial, sources, consumers)
    ensures |Matched(initial, sources, consumers)| <= |initial| + |consumers|
    ensures NoDuplicates(initial) ==> NoDuplicates(Matched(initial, sources, consumers))
    decreases |consumers|
  {
    if consumers != [] {
      MatchedExtends(initial, sources, consumers[..|consumers| - 1]);
    }
  }

  /** Each consumer ends up with at most one source: the multimap never holds it with two. */
  lemma OneSourcePerConsumer(sources: seq<EventSource>, consumers: seq<EventConsumer>,
                             s1: EventSource, s2: EventSource, c: EventConsumer)
    requires (s1, c) in Matched([], sources, consumers) && (s2, c) in Matched([], sources, consumers)
    ensures s1 == s2 && s1.streamName == c.streamName && s1 in sources
  {
    MatchedIff([], sources, consumers, (s1, c));
    MatchedIff([], sources, consumers, (s2, c));
  }

  /** Nothing is matched exactly when no consumer has a source of its stream name. */
  lemma NothingMatchedIff(sources: seq<EventSource>, consumers: seq<EventConsumer>)
    ensures Matched([], sources, consumers) == []
            <==> forall i :: 0 <= i < |consumers| ==> FindAny(sources, consumers[i].streamName).None?
  {
    var m := Matched([], sources, consumers);
    if m != [] {
      MatchedIff([], sources, consumers, m[0]);
      var i :| 0 <= i < |consumers| && consumers[i] == m[0].1;
      assert FindAny(sources, consumers[i].streamName).Some?;
    } else {
      forall i | 0 <= i < |consumers|
        ensures FindAny(sources, consumers[i].streamName).None?
      {
        var f := FindAny(sources, consumers[i].streamName);
        if f.Some? {
          MatchedIff([], sources, consumers, (f.value, consumers[i]));
          assert false;
        }
      }
    }
  }

  /** keySet() holds exactly the sources of the multimap's pairings, each once, and no more of them than pairings. */
  lemma {:induction false} KeysIff(multimap: seq<Pairing>, source: EventSource)
    ensures source in Keys(multimap) <==> exists i :: 0 <= i < |multimap| && multimap[i].0 == source
    ensures NoDuplicates(Keys(multimap))
    ensures |Keys(multimap)| <= |multimap|
    decreases |multimap|
  {
    if multimap != [] {
      var prefix := multimap[..|multimap| - 1];
      KeysIff(prefix, source);
      assert forall i :: 0 <= i < |prefix| ==> prefix[i] == multimap[i];
    }
  }

  /** get(source) holds exactly the consumers paired with `source`. */
  lemma {:induction false} ConsumersOfIff(multimap: seq<Pairing>, source: EventSource, consumer: EventConsumer)
    ensures consumer in ConsumersOf(multimap, source) <==> (source, consumer) in multimap
    decreases |multimap|
  {
    if multimap != [] {
      var prefix := multimap[..|multimap| - 1];
      ConsumersOfIff(prefix, source, consumer);
      assert multimap == prefix + [multimap[|multimap| - 1]];
    }
  }

  /**
   * init submits one task per distinct matched source, each naming exactly the consumers
   * paired with it, and a pool sized by the pairings has a thread for every task.
   */
  lemma TasksPerSource(multimap: seq<Pairing>, source: EventSource, consumer: EventConsumer)
    ensures (exists t :: t in Tasks(multimap) && t.source == source)
            <==> exists i :: 0 <= i < |multimap| && multimap[i].0 == source
    ensures forall t :: t in Tasks(multimap) ==> (consumer in t.consumers <==> (t.source, consumer) in multimap)
    ensures |Tasks(multimap)| <= |multimap|
  {
    var keys := Keys(multimap);
    KeysIff(multimap, source);
    forall t | t in Tasks(multimap)
      ensures consumer in t.consumers <==> (t.source, consumer) in multimap
    {
      ConsumersOfIff(multimap, t.source, consumer);
    }
    if exists i :: 0 <= i < |multimap| && multimap[i].0 == source {
      var k :| 0 <= k < |keys| && keys[k] == source;
      assert Tasks(multimap)[k].source == source;
    }
  }

  class EventSourceConsumerProcess {
    /** The AtomicBoolean every task's stop condition reads. */
    var stopThread: bool
    /** null when nothing was matched. */
    var executorService: Option<ExecutorService>
    /** The LinkedHashMultimap from sources to consumers, as its pairings in insertion order. */
    var eventSourceWithConsumer: seq<Pairing>

    /** A pool exists exactly when something was matched, and has one thread per pairing. */
    predicate Valid()
      reads this
    {
      && NoDuplicates(eventSourceWithConsumer)
      && (executorService.None? <==> eventSourceWithConsumer == [])
      && (executorService.Some? ==> executorService.value.nThreads == |eventSourceWithConsumer|)
    }

    constructor(eventSources: seq<EventSource>, eventConsumers: seq<EventConsumer>)
      ensures Valid()
      ensures eventSourceWithConsumer == Matched([], eventSources, eventConsumers)
      ensures executorService == if eventSourceWithConsumer == [] then None
                                 else Some(FixedThreadPool(|eventSourceWithConsumer|, [], false))
      ensures !stopThread
    {
      stopThread := false;
      eventSourceWithConsumer := [];
      executorService := None;
      new;
      MatchEventConsumersWithEventSourcesByStreamName(eventSources, eventConsumers);
      MatchedExtends([], eventSources, eventConsumers);
      if |eventSourceWithConsumer| > 0 {
        executorService := Some(FixedThreadPool(|eventSourceWithConsumer|, [], false));
      }
    }

    /** Puts every consumer that has a source of its stream name into the multimap, in consumer order. */
    method MatchEventConsumersWithEventSourcesByStreamName(eventSources: seq<EventSource>,
                                                           eventConsumers: seq<EventConsumer>)
      modifies this
      ensures eventSourceWithConsumer == Matched(old(eventSourceWithConsumer), eventSources, eventConsumers)
      ensures stopThread == old(stopThread) && executorService == old(executorService)
    {
      for i := 0 to |eventConsumers|
        invariant eventSourceWithConsumer == Matched(old(eventSourceWithConsumer), eventSources, eventConsumers[..i])
        invariant stopThread == old(stopThread) && executorService == old(executorService)
      {
        var consumer := eventConsumers[i];
        assert eventConsumers[..i + 1][..i] == eventConsumers[..i];
        match FindAny(eventSources, consumer.streamName)
        case Some(eventSource) =>
          eventSourceWithConsumer := Put(eventSourceWithConsumer, (eventSource, consumer));
        case None =>
      }
      assert eventConsumers[..|eventConsumers|] == eventConsumers;
    }

    /** init: submits, for every key of the multimap in order, one task over that source's consumers. */
    method Init()
      requires Valid()
      modifies this
      ensures Valid()
      ensures executorService == Submitted(old(executorService), Tasks(eventSourceWithConsumer))
      ensures eventSourceWithConsumer == old(eventSourceWithConsumer) && stopThread == old(stopThread)
    {
      var keys := Keys(eventSourceWithConsumer);
      assert old(executorService).Some? ==> old(executorService).value.submitted + [] == old(executorService).value.submitted;
      for i := 0 to |keys|
        invariant Valid()
        invariant executorService == Submitted(old(executorService), TasksFor(eventSourceWithConsumer, keys[..i]))
        invariant eventSourceWithConsumer == old(eventSourceWithConsumer) && stopThread == old(stopThread)
      {
        var eventSource := keys[i];
        KeysIff(eventSourceWithConsumer, eventSource);
        var task := Task(eventSource, ConsumersOf(eventSourceWithConsumer, eventSource));
        var executor := executorService.value;
        executorService := Some(executor.(submitted := executor.submitted + [task]));
        ghost var done := TasksFor(eventSourceWithConsumer, keys[..i]);
        assert TasksFor(eventSourceWithConsumer, keys[..i + 1]) == done + [task];
        assert executor.submitted == old(executorService).value.submitted + done;
        assert executor.submitted + [task] == old(executorService).value.submitted + (done + [task]);
      }
      assert keys[..|keys|] == keys;
    }

    /** shutdown: raises the stop flag first, then shuts the pool down if there is one. */
    method Shutdown()
      modifies this
      ensures stopThread
      ensures executorService == match old(executorService)
                                 case None => None
                                 case Some(e) => Some(e.(shutdownRequested := true))
      ensures eventSourceWithConsumer == old(eventSourceWithConsumer)
    {
      stopThread := true;
      if executorService.Some? {
        executorService := Some(executorService.value.(shutdownRequested := true));
      }
    }
  }
}
