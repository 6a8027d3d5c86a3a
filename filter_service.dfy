/**
 * The stateful side of the inbound message filter gate
 * (`SimpleMessageFilterService`): the deduplication cache that bounds error
 * logging, and the gate object whose session/producer pair follows the
 * aggregated status of its dependencies.
 */
module FilterService {

  import opened Wrappers
  import opened Liveness
  import opened FirewallConfig
  import opened MessageFilter

  /**
   * A bounded cache of the ids whose forwarding failure has already been
   * logged. Entries are written once (`putIfAbsent`); when the cache is full
   * an arbitrary entry makes room, and `Expire` stands for the expiry after
   * write, which happens at times this model does not track.
   */
  class DedupCache {
    const maximumSize: nat
    var entries: map<string, string>

    ghost predicate Valid()
      reads this
    {
      |entries| <= maximumSize
    }

    constructor (maximumSize: nat)
      ensures this.maximumSize == maximumSize && entries == map[] && Valid()
    {
      this.maximumSize := maximumSize;
      entries := map[];
    }

    /** `asMap().putIfAbsent(key, value)`: the value already held for `key`, or None after storing `value`. */
    method PutIfAbsent(key: string, value: string) returns (previous: Option<string>)
      requires Valid()
      modifies this
      ensures Valid()
      ensures key in old(entries) ==> previous == Some(old(entries)[key]) && entries == old(entries)
      ensures key !in old(entries) ==> previous == None
      ensures key !in old(entries) && maximumSize > 0 ==> key in entries && entries[key] == value
      ensures forall k :: k in entries && k != key ==> k in old(entries) && entries[k] == old(entries)[k]
    {
      if key in entries {
        previous := Some(entries[key]);
      } else {
        previous := None;
        if maximumSize > 0 {
          var room := entries;
          if |entries| >= maximumSize {
            assert entries.Keys != {};
            var victim :| victim in entries;
            room := entries - {victim};
            assert room.Keys == entries.Keys - {victim};
          }
          entries := room[key := value];
        }
      }
    }

    /** The entry for `key` expires or is evicted. */
    method Expire(key: string)
      requires Valid()
      modifies this
      ensures Valid()
      ensures entries == old(entries) - {key}
    {
      assert (entries - {key}).Keys <= entries.Keys;
      entries := entries - {key};
    }
  }

  /** The outcome of trying to open a session and a producer on the local broker. */
  datatype SessionAttempt =
    | SessionUnavailable                          // no started connection, or createSession threw
    | ProducerUnavailable(session: SessionHandle) // createSession succeeded, createProducer threw
    | Opened(session: SessionHandle, producer: ProducerHandle)

  /** Closing whatever is open: the producer first, then the session. */
  function Teardown(session: Option<SessionHandle>, producer: Option<ProducerHandle>): seq<Event>
  {
    (if producer.Some? then [ProducerClosed(producer.value)] else []) +
    (if session.Some? then [SessionClosed(session.value)] else [])
  }

  /** The effects of the activation callback receiving `signal`. */
  function ActivationEvents(signal: bool, attempt: SessionAttempt,
                            session: Option<SessionHandle>, producer: Option<ProducerHandle>): seq<Event>
  {
    if signal then (if attempt.Opened? then [] else [ConnectionBounced]) + [ActiveSet(true)]
    else Teardown(session, producer) + [ActiveSet(false)]
  }

  /** The session held after the activation callback. */
  function SessionAfter(signal: bool, attempt: SessionAttempt, session: Option<SessionHandle>): Option<SessionHandle>
  {
    if !signal then None
    else match attempt
      case SessionUnavailable => session
      case ProducerUnavailable(s) => Some(s)
      case Opened(s, _) => Some(s)
  }

  /** The producer held after the activation callback. */
  function ProducerAfter(signal: bool, attempt: SessionAttempt, producer: Option<ProducerHandle>): Option<ProducerHandle>
  {
    if !signal then None
    else match attempt
      case Opened(_, p) => Some(p)
      case _ => producer
  }

  /** Teardown closes the producer before the session and closes nothing that is not open. */
  lemma TeardownOrder(session: Option<SessionHandle>, producer: Option<ProducerHandle>)
    ensures session.Some? && producer.Some? ==>
              Teardown(session, producer) == [ProducerClosed(producer.value), SessionClosed(session.value)]
    ensures producer.Some? && session.None? ==> Teardown(session, producer) == [ProducerClosed(producer.value)]
    ensures session.Some? && producer.None? ==> Teardown(session, producer) == [SessionClosed(session.value)]
    ensures Teardown(None, None) == []
    ensures |Teardown(session, producer)| == (if session.Some? then 1 else 0) + (if producer.Some? then 1 else 0)
  {
  }

  /**
   * The activation callback: on `true` a failed attempt bounces the
   * connection, on `false` everything open is closed and dropped; either way
   * the gate's own status becomes the signal, also when opening failed.
   */
  lemma ActivationOutcome(signal: bool, attempt: SessionAttempt,
                          session: Option<SessionHandle>, producer: Option<ProducerHandle>)
    ensures var t := ActivationEvents(signal, attempt, session, producer);
      t[|t| - 1] == ActiveSet(signal) &&
      (ConnectionBounced in t <==> signal && !attempt.Opened?) &&
      (!signal ==> SessionAfter(signal, attempt, session).None? && ProducerAfter(signal, attempt, producer).None?) &&
      (signal && attempt.Opened? ==>
         SessionAfter(signal, attempt, session) == Some(attempt.session) &&
         ProducerAfter(signal, attempt, producer) == Some(attempt.producer))
  {
  }

  class SimpleMessageFilterService {
    /** `whiteListedAMQPHeaders`: the configured header list as a set. */
    const whitelist: set<string>
    const oracles: Oracles
    /** The aggregator over the audit service, the broker connection service and the sender service. */
    const statusFollower: ServiceStateCombiner
    const cache: DedupCache
    /** `statusSubscriber != null` */
    var subscribed: bool
    var inboundSession: Option<SessionHandle>
    var inboundProducer: Option<ProducerHandle>
    /** `stateHelper.active` */
    var active: bool
    /** The effects the gate has had so far, in order. */
    var events: seq<Event>
    /** The positions in `events` of the sends whose acknowledgement has arrived. */
    ghost var acknowledged: set<nat>

    /**
     * What holds between any two steps, also while a status change is being
     * delivered: the cache maps each id to itself, only sends are
     * acknowledged, and an inactive gate holds no session or producer.
     */
    ghost predicate Consistent()
      reads this, cache
    {
      cache.Valid() &&
      (forall id :: id in cache.entries ==> cache.entries[id] == id) &&
      (forall k :: k in acknowledged ==> k < |events| && events[k].Sent?) &&
      (!active ==> inboundSession.None? && inboundProducer.None?)
    }

    /** The gate is active exactly while it is subscribed and every dependency is active. */
    ghost predicate Valid()
      reads this, cache, statusFollower
    {
      Consistent() &&
      |statusFollower.statuses| == 3 &&
      active == (subscribed && statusFollower.Active())
    }

    /** Both the session and the producer are present. */
    function Ready(): bool
      reads this
    {
      inboundSession.Some? && inboundProducer.Some?
    }

    constructor (conf: FirewallConfiguration, oracles: Oracles, dependencyStatuses: seq<bool>, maximumCacheSize: nat)
      requires |dependencyStatuses| == 3
      ensures Valid() && fresh(statusFollower) && fresh(cache)
      ensures whitelist == set h | h in conf.whitelistedHeaders
      ensures this.oracles == oracles && statusFollower.statuses == dependencyStatuses
      ensures cache.maximumSize == maximumCacheSize && cache.entries == map[]
      ensures !subscribed && !active && inboundSession.None? && inboundProducer.None? && events == []
      ensures acknowledged == {}
    {
      whitelist := set h | h in conf.whitelistedHeaders;
      this.oracles := oracles;
      statusFollower := new ServiceStateCombiner(dependencyStatuses);
      cache := new DedupCache(maximumCacheSize);
      subscribed := false;
      inboundSession, inboundProducer := None, None;
      active := false;
      events := [];
      acknowledged := {};
    }

    /** The callback `start` subscribes with; `signal` is the aggregated status delivered. */
    method ActiveChanged(signal: bool, attempt: SessionAttempt)
      requires Consistent()
      modifies this
      ensures Consistent() && active == signal
      ensures inboundSession == SessionAfter(signal, attempt, old(inboundSession))
      ensures inboundProducer == ProducerAfter(signal, attempt, old(inboundProducer))
      ensures events == old(events) + ActivationEvents(signal, attempt, old(inboundSession), old(inboundProducer))
      ensures subscribed == old(subscribed) && acknowledged == old(acknowledged)
    {
      if signal {
        match attempt
        case SessionUnavailable =>
          events := events + [ConnectionBounced];
        case ProducerUnavailable(s) =>
          inboundSession := Some(s);
          events := events + [ConnectionBounced];
        case Opened(s, p) =>
          inboundSession := Some(s);
          inboundProducer := Some(p);
      } else {
        if inboundProducer.Some? {
          events := events + [ProducerClosed(inboundProducer.value)];
        }
        inboundProducer := None;
        if inboundSession.Some? {
          events := events + [SessionClosed(inboundSession.value)];
        }
        inboundSession := None;
      }
      active := signal;
      events := events + [ActiveSet(signal)];
    }

    /** `start`: subscribe to the aggregator, which delivers its current status at once. */
    method Start(attempt: SessionAttempt)
      requires Valid() && !subscribed
      modifies this
      ensures Valid() && subscribed && active == statusFollower.Active()
      ensures inboundSession == SessionAfter(active, attempt, old(inboundSession))
      ensures inboundProducer == ProducerAfter(active, attempt, old(inboundProducer))
      ensures events == old(events) + [Subscribed] +
                        ActivationEvents(active, attempt, old(inboundSession), old(inboundProducer))
      ensures acknowledged == old(acknowledged)
    {
      subscribed := true;
      events := events + [Subscribed];
      ActiveChanged(statusFollower.Active(), attempt);
    }

    /**
     * Dependency `i` (0 audit, 1 broker connection, 2 sender) reports `status`;
     * the callback runs only when subscribed and the aggregated status changed.
     */
    method DependencyChanged(i: nat, status: bool, attempt: SessionAttempt)
      requires Valid() && i < 3
      modifies this, statusFollower
      ensures Valid() && subscribed == old(subscribed) && acknowledged == old(acknowledged)
      ensures statusFollower.statuses == old(statusFollower.statuses)[i := status]
      ensures var delivered := old(subscribed) && statusFollower.Active() != old(statusFollower.Active());
        if delivered then
          inboundSession == SessionAfter(active, attempt, old(inboundSession)) &&
          inboundProducer == ProducerAfter(active, attempt, old(inboundProducer)) &&
          events == old(events) + ActivationEvents(active, attempt, old(inboundSession), old(inboundProducer))
        else
          inboundSession == old(inboundSession) && inboundProducer == old(inboundProducer) &&
          active == old(active) && events == old(events)
    {
      var changed := statusFollower.Update(i, status);
      if subscribed && changed {
        ActiveChanged(statusFollower.Active(), attempt);
      }
    }

    /** `stop`: close and drop the producer and the session, go inactive, unsubscribe. */
    method Stop()
      requires Valid()
      modifies this
      ensures Valid()
      ensures inboundSession.None? && inboundProducer.None? && !active && !subscribed
      ensures events == old(events) + Teardown(old(inboundSession), old(inboundProducer)) + [ActiveSet(false)] +
                        (if old(subscribed) then [Unsubscribed] else [])
      ensures acknowledged == old(acknowledged)
    {
      var closed: seq<Event> := [];
      if inboundProducer.Some? {
        closed := closed + [ProducerClosed(inboundProducer.value)];
      }
      inboundProducer := None;
      if inboundSession.Some? {
        closed := closed + [SessionClosed(inboundSession.value)];
      }
      inboundSession := None;
      active := false;
      var unsubscribed: seq<Event> := if subscribed then [Unsubscribed] else [];
      subscribed := false;
      events := events + closed + [ActiveSet(false)] + unsubscribed;
    }

    /**
     * `sendMessageToLocalBroker(m)`: validate and forward, or drop, the
     * message; `sendSucceeds` says whether creating and sending the broker
     * message returns normally.
     */
    method SendMessageToLocalBroker(m: ReceivedMessage, sendSucceeds: bool)
      requires Valid()
      modifies this, cache
      ensures Valid()
      ensures events == old(events) +
                InboundEvents(old(active), old(Ready()), sendSucceeds, whitelist, oracles, m, old(cache.entries.Keys))
      ensures inboundSession == old(inboundSession) && inboundProducer == old(inboundProducer)
      ensures active == old(active) && subscribed == old(subscribed) && acknowledged == old(acknowledged)
      ensures !(ForwardFails(old(active), old(Ready()), sendSucceeds, whitelist, oracles, m) && MessageId(m).Some?) ==>
                cache.entries == old(cache.entries)
      ensures ForwardFails(old(active), old(Ready()), sendSucceeds, whitelist, oracles, m) && MessageId(m).Some? ==>
                var id := MessageId(m).value;
                (id in old(cache.entries) ==> cache.entries == old(cache.entries)) &&
                (cache.maximumSize > 0 ==> id in cache.entries && cache.entries[id] == id) &&
                (forall k :: k in cache.entries && k != id ==> k in old(cache.entries) && cache.entries[k] == old(cache.entries)[k])
    {
      if !active {
        events := events + [PacketDropped(m, DependenciesDown), Completed(m, false)];
        return;
      }
      var failure := Validate(m, whitelist, oracles);
      if failure.Some? {
        events := events + [PacketDropped(m, FailedValidation(failure.value)), Completed(m, true)];
        return;
      }
      var msgId := MessageId(m);
      var forwarded := false;
      if inboundSession.Some? && inboundProducer.Some? {
        var artemisMessage := BuildArtemisMessage(m, whitelist);
        if sendSucceeds {
          events := events + [Sent(m.topic, artemisMessage, m), PacketAccepted(m), Released(m)];
          forwarded := true;
        }
      }
      if !forwarded {
        var previousRecord: Option<string> := None;
        if msgId.Some? {
          previousRecord := cache.PutIfAbsent(msgId.value, msgId.value);
        }
        var severity := if previousRecord.None? then Error else Trace;
        events := events + [ForwardFailureLogged(msgId, severity), Completed(m, false)];
      }
    }

    /**
     * The acknowledgement handler of the send recorded at `events[k]` consumes
     * the original message; the broker acknowledges each send once.
     */
    method SendAcknowledged(k: nat)
      requires Valid() && k < |events| && events[k].Sent? && k !in acknowledged
      modifies this
      ensures Valid()
      ensures events == old(events) + [Completed(old(events)[k].origin, true)]
      ensures acknowledged == old(acknowledged) + {k}
      ensures inboundSession == old(inboundSession) && inboundProducer == old(inboundProducer)
      ensures active == old(active) && subscribed == old(subscribed)
    {
      events := events + [Completed(events[k].origin, true)];
      acknowledged := acknowledged + {k};
    }
  }

  /**
   * Consecutive forwarding failures of one message with an id and nothing in
   * between, each for want of a session or producer or because the send
   * throws: the first is logged at error level unless the id was already
   * cached, every later one at trace level while the cache can hold an entry.
   */
  method RepeatedForwardFailures(gate: SimpleMessageFilterService, m: ReceivedMessage, sends: seq<bool>)
    requires gate.Valid() && gate.cache.maximumSize > 0 && MessageId(m).Some?
    requires forall i :: 0 <= i < |sends| ==>
               ForwardFails(gate.active, gate.Ready(), sends[i], gate.whitelist, gate.oracles, m)
    modifies gate, gate.cache
    ensures gate.Valid()
    ensures gate.events == old(gate.events) +
              FailureTrace(m, FailureSeverity(MessageId(m), old(gate.cache.entries.Keys)), |sends|)
  {
    ghost var first := FailureSeverity(MessageId(m), gate.cache.entries.Keys);
    var i := 0;
    while i < |sends|
      invariant 0 <= i <= |sends|
      invariant gate.Valid()
      invariant gate.active == old(gate.active)
      invariant gate.inboundSession == old(gate.inboundSession) && gate.inboundProducer == old(gate.inboundProducer)
      invariant i == 0 ==> gate.cache.entries == old(gate.cache.entries)
      invariant i > 0 ==> MessageId(m).value in gate.cache.entries
      invariant gate.events == old(gate.events) + FailureTrace(m, first, i)
    {
      assert ForwardFails(gate.active, gate.Ready(), sends[i], gate.whitelist, gate.oracles, m);
      ghost var severity := FailureSeverity(MessageId(m), gate.cache.entries.Keys);
      assert severity == if i == 0 then first else Trace;
      gate.SendMessageToLocalBroker(m, sends[i]);
      assert FailureTrace(m, first, i + 1) ==
             FailureTrace(m, first, i) + [ForwardFailureLogged(MessageId(m), severity), Completed(m, false)];
      i := i + 1;
    }
  }
}
