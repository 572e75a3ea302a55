/**
 * MessageReceiverEndpointInfoProvider: keeps, per channel, the latest status info of its
 * message receiver endpoint and the instant the channel was last seen STARTING, updating
 * both from each receiver notification. The clock is an integer instant passed to every call.
 */
module EndpointInfo {
  import opened Wrappers

  datatype MessageReceiverStatus = STARTING | STARTED | RUNNING | FINISHED | FAILED

  /** How far a channel's shards are behind head; `Unknown` is ChannelDurationBehind.unknown(). */
  datatype ChannelDurationBehind = Unknown | DurationBehind(shardDurationsBehind: map<string, int>)

  /** An info message, kept structured instead of formatted into text. */
  datatype InfoMessage =
    | Text(text: string)
      /** "Channel is <durationBehind> behind head." */
    | BehindHead(durationBehind: ChannelDurationBehind)
      /** "<message> Finished consumption after <runtime>." */
    | FinishedAfter(message: string, runtime: int)

  datatype MessageReceiverNotification = MessageReceiverNotification(
    channelName: string,
    status: MessageReceiverStatus,
    message: string,
    channelDurationBehind: Option<ChannelDurationBehind>)

  datatype MessageReceiverEndpointInfo = MessageReceiverEndpointInfo(
    channelName: string,
    status: MessageReceiverStatus,
    message: InfoMessage,
    durationBehind: Option<ChannelDurationBehind>)

  /** The two NullPointerExceptions a FINISHED notification can raise. */
  datatype ProviderError =
    | NoStartupTime(channelName: string)  // channelStartupTimes.get(channelName) is null
    | NoInfo(channelName: string)         // getChannelInfoFor(channelName) is null

  /** What the provider holds: the endpoint infos by channel, and the startup instants by channel. */
  datatype ProviderState = ProviderState(infos: map<string, MessageReceiverEndpointInfo>,
                                         channelStartupTimes: map<string, int>)

  /** The update rule of on(notification), with `now` the clock's instant. */
  function Step(s: ProviderState, n: MessageReceiverNotification, now: int): (r: Result<ProviderState, ProviderError>)
    ensures r.Failure? <==> n.status == FINISHED && (n.channelName !in s.channelStartupTimes || n.channelName !in s.infos)
    ensures r.Failure? ==> r.error == if n.channelName !in s.channelStartupTimes then NoStartupTime(n.channelName)
                                      else NoInfo(n.channelName)
    ensures r.Success? ==> Unchanged(s, r.value, n.channelName)
    ensures r.Success? ==> n.channelName in r.value.infos
                           && r.value.infos[n.channelName].channelName == n.channelName
                           && r.value.infos[n.channelName].status == n.status
  {
    var c := n.channelName;
    match n.status
    case STARTING =>
      var info := MessageReceiverEndpointInfo(c, STARTING, Text(n.message), None);
      Success(ProviderState(s.infos[c := info], s.channelStartupTimes[c := now]))
    case RUNNING =>
      var durationBehind := n.channelDurationBehind.GetOr(Unknown);
      var info := MessageReceiverEndpointInfo(c, RUNNING, BehindHead(durationBehind), Some(durationBehind));
      Success(s.(infos := s.infos[c := info]))
    case FINISHED =>
      if c !in s.channelStartupTimes then Failure(NoStartupTime(c))
      else if c !in s.infos then Failure(NoInfo(c))
      else
        var runtime := now - s.channelStartupTimes[c];
        var info := MessageReceiverEndpointInfo(c, FINISHED, FinishedAfter(n.message, runtime), s.infos[c].durationBehind);
        Success(s.(infos := s.infos[c := info]))
    case _ =>
      var info := MessageReceiverEndpointInfo(c, n.status, Text(n.message), None);
      Success(s.(infos := s.infos[c := info]))
  }

  /** Every channel other than `channelName` keeps its info and its startup instant. */
  predicate Unchanged(s: ProviderState, t: ProviderState, channelName: string) {
    && t.infos.Keys - {channelName} == s.infos.Keys - {channelName}
    && (forall c :: c != channelName && c in s.infos ==> c in t.infos && t.infos[c] == s.infos[c])
    && t.channelStartupTimes.Keys - {channelName} == s.channelStartupTimes.Keys - {channelName}
    && (forall c :: c != channelName && c in s.channelStartupTimes ==>
          c in t.channelStartupTimes && t.channelStartupTimes[c] == s.channelStartupTimes[c])
  }

  /**
   * The provider as the event listener sees it: notifications delivered one after another, each
   * with the clock's instant; one that throws leaves the provider as it was.
   */
  function Deliver(s: ProviderState, events: seq<(MessageReceiverNotification, int)>): ProviderState
    decreases |events|
  {
    if events == [] then s
    else
      var next := match Step(s, events[0].0, events[0].1)
                  case Success(t) => t
                  case Failure(_) => s;
      Deliver(next, events[1..])
  }

  /** No notification among `events` is a STARTING one for `channelName`. */
  predicate NoStartingFor(events: seq<(MessageReceiverNotification, int)>, channelName: string) {
    forall i :: 0 <= i < |events| ==> !(events[i].0.channelName == channelName && events[i].0.status == STARTING)
  }

  /** Per notification status, the info the channel is left with, and what happens to its startup instant. */
  lemma StepByStatus(s: ProviderState, n: MessageReceiverNotification, now: int)
    ensures n.status == STARTING ==>
              Step(s, n, now) == Success(ProviderState(
                s.infos[n.channelName := MessageReceiverEndpointInfo(n.channelName, STARTING, Text(n.message), None)],
                s.channelStartupTimes[n.channelName := now]))
    ensures n.status in {STARTED, FAILED} ==>
              Step(s, n, now).Success?
              && Step(s, n, now).value.infos[n.channelName] == MessageReceiverEndpointInfo(n.channelName, n.status, Text(n.message), None)
              && Step(s, n, now).value.channelStartupTimes == s.channelStartupTimes
    ensures n.status == RUNNING ==>
              Step(s, n, now).Success?
              && Step(s, n, now).value.infos[n.channelName].durationBehind == Some(n.channelDurationBehind.GetOr(Unknown))
              && (n.channelDurationBehind.None? ==> Step(s, n, now).value.infos[n.channelName].durationBehind == Some(Unknown))
              && Step(s, n, now).value.channelStartupTimes == s.channelStartupTimes
    ensures n.status == FINISHED && Step(s, n, now).Success? ==>
              Step(s, n, now).value.infos[n.channelName]
              == MessageReceiverEndpointInfo(n.channelName, FINISHED,
                   FinishedAfter(n.message, now - s.channelStartupTimes[n.channelName]),
                   s.infos[n.channelName].durationBehind)
              && Step(s, n, now).value.channelStartupTimes == s.channelStartupTimes
  {
  }

  /** Notifications that are not STARTING for a channel never move its startup instant. */
  lemma {:induction false} StartupTimeKept(s: ProviderState, events: seq<(MessageReceiverNotification, int)>,
                                           channelName: string)
    requires NoStartingFor(events, channelName)
    ensures channelName in Deliver(s, events).channelStartupTimes <==> channelName in s.channelStartupTimes
    ensures channelName in s.channelStartupTimes ==>
              Deliver(s, events).channelStartupTimes[channelName] == s.channelStartupTimes[channelName]
    decreases |events|
  {
    if events != [] {
      var next := match Step(s, events[0].0, events[0].1)
                  case Success(t) => t
                  case Failure(_) => s;
      assert !(events[0].0.channelName == channelName && events[0].0.status == STARTING);
      StepByStatus(s, events[0].0, events[0].1);
      assert NoStartingFor(events[1..], channelName) by {
        forall i | 0 <= i < |events[1..]|
          ensures !(events[1..][i].0.channelName == channelName && events[1..][i].0.status == STARTING)
        {
          assert events[1..][i] == events[i + 1];
        }
      }
      StartupTimeKept(next, events[1..], channelName);
    }
  }

  /** The state after delivering `events` and then one more notification. */
  lemma {:induction false} DeliverSnoc(s: ProviderState, events: seq<(MessageReceiverNotification, int)>,
                                       e: (MessageReceiverNotification, int))
    ensures Deliver(s, events + [e]) == match Step(Deliver(s, events), e.0, e.1)
                                        case Success(t) => t
                                        case Failure(_) => Deliver(s, events)
    decreases |events|
  {
    if events == [] {
      assert events + [e] == [e];
    } else {
      var next := match Step(s, events[0].0, events[0].1)
                  case Success(t) => t
                  case Failure(_) => s;
      assert (events + [e])[0] == events[0];
      assert (events + [e])[1..] == events[1..] + [e];
      DeliverSnoc(next, events[1..], e);
    }
  }

  /**
   * A channel STARTING at `startedAt` and then FINISHED at `now`, with no other STARTING for it
   * in between, finishes and reports a runtime of `now - startedAt`, whatever else came between.
   */
  lemma RuntimeSinceStarting(s: ProviderState, starting: MessageReceiverNotification, startedAt: int,
                             between: seq<(MessageReceiverNotification, int)>,
                             finished: MessageReceiverNotification, now: int)
    requires starting.status == STARTING && finished.status == FINISHED
    requires finished.channelName == starting.channelName
    requires NoStartingFor(between, starting.channelName)
    ensures var before := Deliver(s, [(starting, startedAt)] + between);
            var r := Step(before, finished, now);
            r.Success? && r.value.infos[finished.channelName].message == FinishedAfter(finished.message, now - startedAt)
  {
    var c := starting.channelName;
    var started := Step(s, starting, startedAt).value;
    StepByStatus(s, starting, startedAt);
    var events := [(starting, startedAt)] + between;
    assert events[0] == (starting, startedAt);
    assert events[1..] == between;
    assert Deliver(s, events) == Deliver(started, between);
    StartupTimeKept(started, between, c);
    InfoKept(started, between, c);
    StepByStatus(Deliver(started, between), finished, now);
  }

  /** A channel that has an info keeps having one, whatever notifications follow. */
  lemma {:induction false} InfoKept(s: ProviderState, events: seq<(MessageReceiverNotification, int)>, channelName: string)
    requires channelName in s.infos
    ensures channelName in Deliver(s, events).infos
    decreases |events|
  {
    if events != [] {
      var next := match Step(s, events[0].0, events[0].1)
                  case Success(t) => t
                  case Failure(_) => s;
      InfoKept(next, events[1..], channelName);
    }
  }

  /** RUNNING and then FINISHED: the finished info carries the duration behind the RUNNING one reported. */
  lemma FinishedKeepsDurationBehind(s: ProviderState, running: MessageReceiverNotification, t0: int,
                                    finished: MessageReceiverNotification, t1: int)
    requires running.status == RUNNING && finished.status == FINISHED
    requires running.channelName == finished.channelName
    requires finished.channelName in s.channelStartupTimes
    ensures var r := Step(Step(s, running, t0).value, finished, t1);
            r.Success? && r.value.infos[finished.channelName].durationBehind == Some(running.channelDurationBehind.GetOr(Unknown))
  {
    StepByStatus(s, running, t0);
    StepByStatus(Step(s, running, t0).value, finished, t1);
  }

  class MessageReceiverEndpointInfoProvider {
    /** The MessageReceiverEndpointInfos, by channel name. */
    var messageReceiverEndpointInfos: map<string, MessageReceiverEndpointInfo>
    var channelStartupTimes: map<string, int>

    function State(): ProviderState
      reads this
    {
      ProviderState(messageReceiverEndpointInfos, channelStartupTimes)
    }

    /**
     * Registers, through MessageReceiverEndpointInfos.add, one info per event source's channel
     * name; `registeredInfo` is the info `add` registers for a channel.
     */
    constructor(eventSourceChannelNames: Option<seq<string>>, registeredInfo: string -> MessageReceiverEndpointInfo)
      ensures eventSourceChannelNames.None? ==> messageReceiverEndpointInfos == map[]
      ensures eventSourceChannelNames.Some? ==>
                forall c :: c in messageReceiverEndpointInfos <==> c in eventSourceChannelNames.value
      ensures forall c :: c in messageReceiverEndpointInfos ==> messageReceiverEndpointInfos[c] == registeredInfo(c)
      ensures channelStartupTimes == map[]
    {
      messageReceiverEndpointInfos := map[];
      channelStartupTimes := map[];
      new;
      if eventSourceChannelNames.Some? {
        var names := eventSourceChannelNames.value;
        for i := 0 to |names|
          invariant forall c :: c in messageReceiverEndpointInfos <==> c in names[..i]
          invariant forall c :: c in messageReceiverEndpointInfos ==> messageReceiverEndpointInfos[c] == registeredInfo(c)
          invariant channelStartupTimes == map[]
        {
          messageReceiverEndpointInfos := messageReceiverEndpointInfos[names[i] := registeredInfo(names[i])];
          assert names[..i + 1] == names[..i] + [names[i]];
        }
        assert names[..|names|] == names;
      }
    }

    /**
     * on(notification): applies the update rule for the notification's status. A FINISHED
     * notification for a channel without a startup instant or an info throws (returned here)
     * and leaves everything as it was.
     */
    method On(notification: MessageReceiverNotification, now: int) returns (thrown: Option<ProviderError>)
      modifies this
      ensures Step(old(State()), notification, now).Success? ==>
                thrown.None? && State() == Step(old(State()), notification, now).value
      ensures Step(old(State()), notification, now).Failure? ==>
                thrown == Some(Step(old(State()), notification, now).error) && State() == old(State())
    {
      var channelName := notification.channelName;
      match notification.status {
        case STARTING =>
          var info := MessageReceiverEndpointInfo(channelName, STARTING, Text(notification.message), None);
          messageReceiverEndpointInfos := messageReceiverEndpointInfos[channelName := info];
          channelStartupTimes := channelStartupTimes[channelName := now];
        case STARTED =>
          var info := MessageReceiverEndpointInfo(channelName, notification.status, Text(notification.message), None);
          messageReceiverEndpointInfos := messageReceiverEndpointInfos[channelName := info];
        case RUNNING =>
          var durationBehind := notification.channelDurationBehind.GetOr(Unknown);
          var info := MessageReceiverEndpointInfo(channelName, notification.status, BehindHead(durationBehind), Some(durationBehind));
          messageReceiverEndpointInfos := messageReceiverEndpointInfos[channelName := info];
        case FINISHED =>
          if channelName !in channelStartupTimes {
            return Some(NoStartupTime(channelName));
          }
          var runtime := now - channelStartupTimes[channelName];
          if channelName !in messageReceiverEndpointInfos {
            return Some(NoInfo(channelName));
          }
          var lastDurationBehind := messageReceiverEndpointInfos[channelName].durationBehind;
          var info := MessageReceiverEndpointInfo(channelName, notification.status,
                                                  FinishedAfter(notification.message, runtime), lastDurationBehind);
          messageReceiverEndpointInfos := messageReceiverEndpointInfos[channelName := info];
        case FAILED =>
          var info := MessageReceiverEndpointInfo(channelName, notification.status, Text(notification.message), None);
          messageReceiverEndpointInfos := messageReceiverEndpointInfos[channelName := info];
      }
      return None;
    }
  }
}
