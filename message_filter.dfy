/**
 * The decision logic of the inbound message filter gate
 * (`SimpleMessageFilterService`): the validation of an inbound message, the
 * message forwarded to the local broker, and the ordered trace of effects one
 * call of `sendMessageToLocalBroker` produces.
 */
module MessageFilter {

  import opened Wrappers

  type Byte = bv8

  /** An application property value as the broker client sees it: null, or a value shown by its `toString`. */
  datatype Prop = Null | Val(text: string)

  /** A message received from the float over AMQP. */
  datatype ReceivedMessage = ReceivedMessage(
    sourceLegalName: string,
    topic: string,
    payload: seq<Byte>,
    applicationProperties: map<string, Prop>)

  /** A parsed X.500 legal name; its structure does not matter to the gate. */
  datatype LegalName = LegalName(canonical: string)

  /**
   * The collaborators the gate consults: the legal name parser
   * (`CordaX500Name.parse`, None where it throws) and the sender service's
   * check that a topic is a legitimate inbox for a node (`validateReceiveTopic`).
   */
  datatype Oracles = Oracles(
    parseLegalName: string -> Option<LegalName>,
    validateReceiveTopic: (string, LegalName) -> bool)

  /** Why validation refused a message; one constructor per check, in the order they run. */
  datatype ValidationError =
    | InvalidLegalName(name: string)          // "Invalid Legal Name ..." (a SecurityException)
    | NoValidPayload                          // "No valid payload"
    | TopicNotLegitimateInbox(topic: string)  // "Topic not a legitimate Inbox for a node on this Artemis Broker ..."
    | DisallowedHeaderPresent(keys: set<string>) // "Disallowed header present in ..."

  /** The reason an audit drop event carries. */
  datatype DropReason =
    | DependenciesDown                        // "Packet arrived while dependencies down."
    | FailedValidation(cause: ValidationError) // "Packet Failed validation checks: " + the cause

  /** The header stamped on every forwarded message with the sender's legal name. */
  const BridgedCertificateSubject: string := "sender-subject-name"

  /** The header whose value identifies repeated forwarding attempts of one message. */
  const DuplicateIdHeader: string := "_AMQ_DUPL_ID"

  /**
   * The four checks of `validateMessage`, in order; the first that fails is
   * the one reported.
   */
  function Validate(m: ReceivedMessage, whitelist: set<string>, oracles: Oracles): (r: Option<ValidationError>)
    ensures r.None? <==>
              oracles.parseLegalName(m.sourceLegalName).Some? &&
              |m.payload| > 0 &&
              oracles.validateReceiveTopic(m.topic, oracles.parseLegalName(m.sourceLegalName).value) &&
              m.applicationProperties.Keys <= whitelist
    ensures r == Some(InvalidLegalName(m.sourceLegalName)) <==>
              oracles.parseLegalName(m.sourceLegalName).None?
    ensures r == Some(NoValidPayload) <==>
              oracles.parseLegalName(m.sourceLegalName).Some? && |m.payload| == 0
    ensures r == Some(TopicNotLegitimateInbox(m.topic)) <==>
              oracles.parseLegalName(m.sourceLegalName).Some? && |m.payload| > 0 &&
              !oracles.validateReceiveTopic(m.topic, oracles.parseLegalName(m.sourceLegalName).value)
    ensures r == Some(DisallowedHeaderPresent(m.applicationProperties.Keys)) <==>
              oracles.parseLegalName(m.sourceLegalName).Some? && |m.payload| > 0 &&
              oracles.validateReceiveTopic(m.topic, oracles.parseLegalName(m.sourceLegalName).value) &&
              !(m.applicationProperties.Keys <= whitelist)
    ensures r.Some? ==> r.value in {InvalidLegalName(m.sourceLegalName), NoValidPayload,
                                    TopicNotLegitimateInbox(m.topic), DisallowedHeaderPresent(m.applicationProperties.Keys)}
  {
    match oracles.parseLegalName(m.sourceLegalName)
    case None => Some(InvalidLegalName(m.sourceLegalName))
    case Some(name) =>
      if |m.payload| == 0 then Some(NoValidPayload)
      else if !oracles.validateReceiveTopic(m.topic, name) then Some(TopicNotLegitimateInbox(m.topic))
      else if !(forall key | key in m.applicationProperties :: key in whitelist)
      then Some(DisallowedHeaderPresent(m.applicationProperties.Keys))
      else None
  }

  /** The idempotency token of a message: the `toString` of its `_AMQ_DUPL_ID` property, null when absent or null. */
  function MessageId(m: ReceivedMessage): (id: Option<string>)
    ensures id.Some? <==> DuplicateIdHeader in m.applicationProperties && m.applicationProperties[DuplicateIdHeader].Val?
    ensures id.Some? ==> m.applicationProperties[DuplicateIdHeader] == Val(id.value)
  {
    if DuplicateIdHeader in m.applicationProperties then
      match m.applicationProperties[DuplicateIdHeader]
      case Null => None
      case Val(text) => Some(text)
    else None
  }

  /** A message built for the local broker (`ClientMessage`). */
  datatype ArtemisMessage = ArtemisMessage(durable: bool, properties: map<string, Prop>, body: seq<Byte>)

  /** The whitelisted properties of `m`, with their values. */
  function WhitelistedProperties(m: ReceivedMessage, whitelist: set<string>): map<string, Prop>
  {
    map key | key in whitelist && key in m.applicationProperties :: m.applicationProperties[key]
  }

  /**
   * The message `sendMessageToLocalBroker` hands to the producer: durable, the
   * whitelisted properties, then the bridged certificate subject stamped on
   * (it wins over an inbound property of the same name), and the payload as
   * its body.
   */
  function ForwardedMessage(m: ReceivedMessage, whitelist: set<string>): ArtemisMessage
  {
    ArtemisMessage(
      true,
      WhitelistedProperties(m, whitelist)[BridgedCertificateSubject := Val(m.sourceLegalName)],
      m.payload)
  }

  /** What the forwarded message holds, in terms of the inbound message. */
  lemma ForwardedMessageContents(m: ReceivedMessage, whitelist: set<string>)
    ensures var out := ForwardedMessage(m, whitelist);
      out.durable &&
      out.body == m.payload &&
      (forall key :: key in out.properties <==>
         key == BridgedCertificateSubject || (key in whitelist && key in m.applicationProperties)) &&
      out.properties[BridgedCertificateSubject] == Val(m.sourceLegalName) &&
      (forall key :: key in out.properties && key != BridgedCertificateSubject ==>
         out.properties[key] == m.applicationProperties[key])
  {
  }

  /**
   * The loop of `sendMessageToLocalBroker` that fills the outbound message:
   * `putObjectProperty` for every whitelisted key present on the input, then
   * `putStringProperty` of the bridged subject and `writeBodyBufferBytes` of
   * the payload.
   */
  method BuildArtemisMessage(m: ReceivedMessage, whitelist: set<string>) returns (out: ArtemisMessage)
    ensures out == ForwardedMessage(m, whitelist)
  {
    var properties: map<string, Prop> := map[];
    var remaining := whitelist;
    while remaining != {}
      invariant remaining <= whitelist
      invariant forall key :: key in properties <==>
                  key in whitelist && key !in remaining && key in m.applicationProperties
      invariant forall key :: key in properties ==> properties[key] == m.applicationProperties[key]
      decreases |remaining|
    {
      var key :| key in remaining;
      if key in m.applicationProperties {
        properties := properties[key := m.applicationProperties[key]];
      }
      remaining := remaining - {key};
    }
    assert properties == WhitelistedProperties(m, whitelist);
    properties := properties[BridgedCertificateSubject := Val(m.sourceLegalName)];
    out := ArtemisMessage(true, properties, m.payload);
  }

  // ---------------------------------------------------------------------------
  // The trace of effects of one inbound message
  // ---------------------------------------------------------------------------

  datatype Severity = Error | Trace

  datatype SessionHandle = SessionHandle(id: nat)
  datatype ProducerHandle = ProducerHandle(id: nat)

  /** An externally visible effect of the gate, in the order it happens. */
  datatype Event =
    | PacketDropped(msg: ReceivedMessage, reason: DropReason)  // auditService.packetDropEvent, inbound
    | PacketAccepted(msg: ReceivedMessage)                     // auditService.packetAcceptedEvent, inbound
    | Completed(msg: ReceivedMessage, consumed: bool)          // inboundMessage.complete(consumed)
    | Released(msg: ReceivedMessage)                           // inboundMessage.release()
    | Sent(address: string, message: ArtemisMessage, origin: ReceivedMessage) // producer.send; origin is what the ack handler completes
    | ForwardFailureLogged(msgId: Option<string>, severity: Severity)
    | ProducerClosed(producer: ProducerHandle)
    | SessionClosed(session: SessionHandle)
    | ConnectionBounced                                        // artemisConnectionService.bounce()
    | ActiveSet(value: bool)                                   // stateHelper.active = value
    | Subscribed                                               // statusFollower.activeChange.subscribe
    | Unsubscribed                                             // statusSubscriber.unsubscribe()

  /** `complete` or `release`: the call hands the message on and is done with it. */
  predicate IsDisposition(e: Event)
  {
    e.Completed? || e.Released?
  }

  /** `complete`: the transport is told to consume the message or redeliver it. */
  predicate IsCompletion(e: Event)
  {
    e.Completed?
  }

  /** The number of effects in a trace that satisfy `p`. */
  function Occurrences(events: seq<Event>, p: Event -> bool): nat
  {
    if events == [] then 0
    else (if p(events[0]) then 1 else 0) + Occurrences(events[1..], p)
  }

  /** The severity a forwarding failure is logged at, given the ids already in the deduplication cache. */
  function FailureSeverity(id: Option<string>, cached: set<string>): Severity
  {
    if id.Some? && id.value in cached then Trace else Error
  }

  /**
   * The effects of one call of `sendMessageToLocalBroker(m)`, given whether the
   * gate is active, whether both the session and the producer are present,
   * whether the synchronous send goes through, and the ids the deduplication
   * cache holds before the call.
   */
  function InboundEvents(active: bool, ready: bool, sendSucceeds: bool, whitelist: set<string>,
                         oracles: Oracles, m: ReceivedMessage, cached: set<string>): seq<Event>
  {
    if !active then
      [PacketDropped(m, DependenciesDown), Completed(m, false)]
    else match Validate(m, whitelist, oracles)
      case Some(cause) =>
        [PacketDropped(m, FailedValidation(cause)), Completed(m, true)]
      case None =>
        if ready && sendSucceeds then
          [Sent(m.topic, ForwardedMessage(m, whitelist), m), PacketAccepted(m), Released(m)]
        else
          [ForwardFailureLogged(MessageId(m), FailureSeverity(MessageId(m), cached)), Completed(m, false)]
  }

  /** Whether a call with these inputs reaches the failure handler of the forwarding step. */
  predicate ForwardFails(active: bool, ready: bool, sendSucceeds: bool, whitelist: set<string>,
                         oracles: Oracles, m: ReceivedMessage)
  {
    active && Validate(m, whitelist, oracles).None? && !(ready && sendSucceeds)
  }

  /**
   * Every path of one call disposes of the message exactly once, and the
   * disposition is the call's last effect.
   */
  lemma {:induction false} ExactlyOneDisposition(active: bool, ready: bool, sendSucceeds: bool, whitelist: set<string>,
                                                 oracles: Oracles, m: ReceivedMessage, cached: set<string>)
    ensures var t := InboundEvents(active, ready, sendSucceeds, whitelist, oracles, m, cached);
      Occurrences(t, IsDisposition) == 1 && IsDisposition(t[|t| - 1]) && t[|t| - 1].msg == m
  {
    var t := InboundEvents(active, ready, sendSucceeds, whitelist, oracles, m, cached);
    assert |t| == 2 || |t| == 3;
    OccurrencesOne(t[0], IsDisposition);
    OccurrencesOne(t[1], IsDisposition);
    if |t| == 2 {
      assert t == [t[0]] + [t[1]];
      OccurrencesAppend([t[0]], [t[1]], IsDisposition);
    } else {
      assert t == [t[0]] + [t[1]] + [t[2]];
      OccurrencesOne(t[2], IsDisposition);
      OccurrencesAppend([t[0]], [t[1]], IsDisposition);
      OccurrencesAppend([t[0]] + [t[1]], [t[2]], IsDisposition);
    }
  }

  lemma OccurrencesOne(e: Event, p: Event -> bool)
    ensures Occurrences([e], p) == if p(e) then 1 else 0
  {
  }

  /** Occurrences add up over concatenated traces. */
  lemma {:induction false} OccurrencesAppend(a: seq<Event>, b: seq<Event>, p: Event -> bool)
    ensures Occurrences(a + b, p) == Occurrences(a, p) + Occurrences(b, p)
  {
    if a == [] {
      assert a + b == b;
    } else {
      assert (a + b)[1..] == a[1..] + b;
      OccurrencesAppend(a[1..], b, p);
    }
  }

  /** What the broker's acknowledgements of the sends in a trace do: `complete(true)` on each send's original message. */
  function Acknowledgements(events: seq<Event>): seq<Event>
  {
    if events == [] then []
    else (if events[0].Sent? then [Completed(events[0].origin, true)] else []) + Acknowledgements(events[1..])
  }

  /**
   * Over the whole life of a message, one call and the acknowledgement of its
   * send if there is one, it is completed exactly once: a forwarded message is
   * released to the broker in the call and completed by the acknowledgement,
   * every other path completes it within the call and sends nothing to
   * acknowledge.
   */
  lemma {:induction false} CompletedOnceOverLifetime(active: bool, ready: bool, sendSucceeds: bool, whitelist: set<string>,
                                                     oracles: Oracles, m: ReceivedMessage, cached: set<string>)
    ensures var t := InboundEvents(active, ready, sendSucceeds, whitelist, oracles, m, cached);
      Occurrences(t + Acknowledgements(t), IsCompletion) == 1 &&
      (Released(m) in t <==> Acknowledgements(t) == [Completed(m, true)]) &&
      (Released(m) !in t ==> Acknowledgements(t) == [] && t[|t| - 1].Completed? && t[|t| - 1].msg == m)
  {
    var t := InboundEvents(active, ready, sendSucceeds, whitelist, oracles, m, cached);
    assert |t| == 2 || |t| == 3;
    OccurrencesOne(t[0], IsCompletion);
    OccurrencesOne(t[1], IsCompletion);
    if |t| == 2 {
      assert t == [t[0]] + [t[1]];
      assert Acknowledgements(t) == [] by {
        assert !t[0].Sent? && !t[1].Sent? && t[1..][1..] == [];
        assert Acknowledgements(t[1..]) == Acknowledgements(t[1..][1..]);
      }
      OccurrencesAppend([t[0]], [t[1]], IsCompletion);
      assert t + Acknowledgements(t) == t;
    } else {
      assert t == [t[0]] + [t[1]] + [t[2]];
      var ack := Completed(m, true);
      assert Acknowledgements(t) == [ack] by {
        assert t[1..][1..][1..] == [];
        assert Acknowledgements(t[1..]) == [] by {
          assert Acknowledgements(t[1..][1..]) == [];
        }
      }
      OccurrencesOne(t[2], IsCompletion);
      OccurrencesOne(ack, IsCompletion);
      assert t + [ack] == [t[0]] + [t[1]] + [t[2]] + [ack];
      OccurrencesAppend([t[0]], [t[1]], IsCompletion);
      OccurrencesAppend([t[0]] + [t[1]], [t[2]], IsCompletion);
      OccurrencesAppend([t[0]] + [t[1]] + [t[2]], [ack], IsCompletion);
    }
  }

  /** Inactive gate: one drop audit and a redelivery request; nothing validated, nothing sent. */
  lemma InactiveRedelivers(ready: bool, sendSucceeds: bool, whitelist: set<string>,
                           oracles: Oracles, m: ReceivedMessage, cached: set<string>)
    ensures InboundEvents(false, ready, sendSucceeds, whitelist, oracles, m, cached) ==
            [PacketDropped(m, DependenciesDown), Completed(m, false)]
  {
  }

  /** A message failing validation is consumed after one drop audit carrying the cause, and never sent. */
  lemma InvalidIsConsumed(ready: bool, sendSucceeds: bool, whitelist: set<string>,
                          oracles: Oracles, m: ReceivedMessage, cached: set<string>)
    requires Validate(m, whitelist, oracles).Some?
    ensures InboundEvents(true, ready, sendSucceeds, whitelist, oracles, m, cached) ==
            [PacketDropped(m, FailedValidation(Validate(m, whitelist, oracles).value)), Completed(m, true)]
  {
  }

  /** A message carrying a header outside the whitelist is consumed, whatever else holds of it. */
  lemma DisallowedHeaderIsConsumed(ready: bool, sendSucceeds: bool, whitelist: set<string>,
                                    oracles: Oracles, m: ReceivedMessage, cached: set<string>, key: string)
    requires key in m.applicationProperties && key !in whitelist
    ensures var t := InboundEvents(true, ready, sendSucceeds, whitelist, oracles, m, cached);
      t[0].PacketDropped? && t[1] == Completed(m, true) && |t| == 2
  {
  }

  /**
   * A valid message reaching a ready gate whose send goes through is sent to
   * its own topic as the forwarded message, then audited as accepted, then
   * released; any other path sends nothing and audits nothing as accepted.
   */
  lemma SentOnlyWhenAccepted(active: bool, ready: bool, sendSucceeds: bool, whitelist: set<string>,
                             oracles: Oracles, m: ReceivedMessage, cached: set<string>)
    ensures var t := InboundEvents(active, ready, sendSucceeds, whitelist, oracles, m, cached);
      (active && Validate(m, whitelist, oracles).None? && ready && sendSucceeds) <==>
      (exists e :: e in t && e.Sent?)
    ensures var t := InboundEvents(active, ready, sendSucceeds, whitelist, oracles, m, cached);
      (forall e :: e in t && e.Sent? ==> e == Sent(m.topic, ForwardedMessage(m, whitelist), m)) &&
      (PacketAccepted(m) in t <==> exists e :: e in t && e.Sent?)
    ensures (active && Validate(m, whitelist, oracles).None? && ready && sendSucceeds) ==>
      InboundEvents(active, ready, sendSucceeds, whitelist, oracles, m, cached) ==
        [Sent(m.topic, ForwardedMessage(m, whitelist), m), PacketAccepted(m), Released(m)]
  {
    var t := InboundEvents(active, ready, sendSucceeds, whitelist, oracles, m, cached);
    if active && Validate(m, whitelist, oracles).None? && ready && sendSucceeds {
      assert t[0] in t && t[0].Sent?;
    }
  }

  /**
   * A forwarding failure requests redelivery; it is logged at error level unless
   * the message's id is already in the cache, and always at error level
   * when the message has no id.
   */
  lemma ForwardFailureRedelivers(ready: bool, sendSucceeds: bool, whitelist: set<string>,
                                 oracles: Oracles, m: ReceivedMessage, cached: set<string>)
    requires ForwardFails(true, ready, sendSucceeds, whitelist, oracles, m)
    ensures var t := InboundEvents(true, ready, sendSucceeds, whitelist, oracles, m, cached);
      t[|t| - 1] == Completed(m, false) &&
      (t[0] == ForwardFailureLogged(MessageId(m), Trace) <==> MessageId(m).Some? && MessageId(m).value in cached) &&
      (MessageId(m).None? ==> t[0].severity == Error)
  {
  }

  /**
   * The effects of `n` consecutive forwarding failures of `m`, nothing in
   * between: the first is logged at `first`, each later one at trace level,
   * each followed by a redelivery request.
   */
  function FailureTrace(m: ReceivedMessage, first: Severity, n: nat): seq<Event>
  {
    if n == 0 then []
    else if n == 1 then [ForwardFailureLogged(MessageId(m), first), Completed(m, false)]
    else FailureTrace(m, first, n - 1) + [ForwardFailureLogged(MessageId(m), Trace), Completed(m, false)]
  }

  /**
   * Of `n` consecutive failures only the first can be logged at error level;
   * every failure asks for redelivery once.
   */
  lemma {:induction false} FailureTraceLevels(m: ReceivedMessage, first: Severity, n: nat)
    ensures var t := FailureTrace(m, first, n);
      |t| == 2 * n &&
      Occurrences(t, IsCompletion) == n &&
      (n > 0 ==> t[0] == ForwardFailureLogged(MessageId(m), first) && t[1] == Completed(m, false) &&
                 forall e :: e in t[2..] ==> e == ForwardFailureLogged(MessageId(m), Trace) || e == Completed(m, false))
  {
    var t := FailureTrace(m, first, n);
    if n == 1 {
      assert t == [t[0]] + [t[1]];
      OccurrencesOne(t[0], IsCompletion);
      OccurrencesOne(t[1], IsCompletion);
      OccurrencesAppend([t[0]], [t[1]], IsCompletion);
      assert t[2..] == [];
    } else if n > 1 {
      var prev := FailureTrace(m, first, n - 1);
      var step := [ForwardFailureLogged(MessageId(m), Trace), Completed(m, false)];
      FailureTraceLevels(m, first, n - 1);
      assert t == prev + step;
      assert step == [step[0]] + [step[1]];
      OccurrencesOne(step[0], IsCompletion);
      OccurrencesOne(step[1], IsCompletion);
      OccurrencesAppend([step[0]], [step[1]], IsCompletion);
      OccurrencesAppend(prev, step, IsCompletion);
      assert t[2..] == prev[2..] + step;
    }
  }
}
