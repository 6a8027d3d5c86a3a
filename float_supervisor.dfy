/**
 * The split-process supervisor of the float (`FloatSupervisorServiceImpl`):
 * an always-present AMQP listener, a float control listener present only in
 * FloatOuter mode, and an aggregator over both whose status the supervisor
 * mirrors as its own.
 */
module FloatSupervisor {

  import opened Wrappers
  import opened Liveness
  import opened FirewallConfig

  /** The configuration error construction fails with (`require` throwing IllegalArgumentException). */
  datatype ConfigurationError = FloatHasHAConfig // "Float process should not have HA config, that is controlled via the bridge."

  /** The construction-time check: a FloatOuter process must carry no HA configuration. */
  function CheckConfiguration(conf: FirewallConfiguration): Option<ConfigurationError>
  {
    if conf.firewallMode == FloatOuter && conf.haConfig.Some? then Some(FloatHasHAConfig) else None
  }

  /** Whether the float control listener is created: exactly in FloatOuter mode. */
  function HasFloatControlService(conf: FirewallConfiguration): bool
  {
    conf.firewallMode == FloatOuter
  }

  /** The number of dependencies the aggregator is built over: the listener, and the control service when created. */
  function DependencyCount(conf: FirewallConfiguration): nat
  {
    if HasFloatControlService(conf) then 2 else 1
  }

  /** An externally visible step of the supervisor, in the order it happens. */
  datatype SupervisorEvent =
    | Subscribed          // statusFollower.activeChange.subscribe
    | ActiveSet(value: bool) // stateHelper.active = value
    | ListenerStarted     // amqpListenerService.start()
    | ControlStarted      // floatControlService.start()
    | ControlStopped      // floatControlService.stop()
    | ListenerStopped     // amqpListenerService.stop()
    | Unsubscribed        // statusSubscriber.unsubscribe()

  /** The steps of `start`, given whether the control service is present and the aggregated status delivered on subscription. */
  function StartEvents(controlPresent: bool, delivered: bool): seq<SupervisorEvent>
  {
    [Subscribed, ActiveSet(delivered), ListenerStarted] + (if controlPresent then [ControlStarted] else [])
  }

  /** The steps of `stop`, given whether the control service is present and whether a subscription is held. */
  function StopEvents(controlPresent: bool, subscribed: bool): seq<SupervisorEvent>
  {
    [ActiveSet(false)] + (if controlPresent then [ControlStopped] else []) + [ListenerStopped] +
    (if subscribed then [Unsubscribed] else [])
  }

  /** `start` subscribes before starting the listener, and the listener before the control service. */
  lemma StartOrder(controlPresent: bool, delivered: bool)
    ensures var t := StartEvents(controlPresent, delivered);
      t[0] == Subscribed && t[2] == ListenerStarted &&
      (ControlStarted in t <==> controlPresent) &&
      (controlPresent ==> t[3] == ControlStarted && |t| == 4)
  {
  }

  /** `stop` first goes inactive, stops the control service before the listener, and unsubscribes last. */
  lemma StopOrder(controlPresent: bool, subscribed: bool)
    ensures var t := StopEvents(controlPresent, subscribed);
      t[0] == ActiveSet(false) &&
      (ControlStopped in t <==> controlPresent) &&
      (controlPresent ==> t[1] == ControlStopped && t[2] == ListenerStopped) &&
      (subscribed ==> t[|t| - 1] == Unsubscribed && t[|t| - 2] == ListenerStopped)
  {
  }

  class FloatSupervisorService {
    const conf: FirewallConfiguration
    /** The aggregator over the listener and, in FloatOuter mode, the control service, fixed at construction. */
    const statusFollower: ServiceStateCombiner
    /** `floatControlService != null` */
    var floatControlPresent: bool
    /** `statusSubscriber != null` */
    var subscribed: bool
    /** `stateHelper.active` */
    var active: bool
    var events: seq<SupervisorEvent>

    /**
     * The aggregator keeps its construction-time dependency list; the control
     * service exists only in FloatOuter mode; the supervisor is active exactly
     * while subscribed and every dependency is active.
     */
    ghost predicate Valid()
      reads this, statusFollower
    {
      CheckConfiguration(conf).None? &&
      |statusFollower.statuses| == DependencyCount(conf) &&
      (floatControlPresent ==> HasFloatControlService(conf)) &&
      active == (subscribed && statusFollower.Active())
    }

    /** `init` once the configuration check has passed; neither sub-service is started. */
    constructor (conf: FirewallConfiguration)
      requires CheckConfiguration(conf).None?
      ensures Valid() && fresh(statusFollower)
      ensures this.conf == conf
      ensures floatControlPresent == HasFloatControlService(conf)
      ensures statusFollower.statuses == seq(DependencyCount(conf), _ => false)
      ensures !subscribed && !active && events == []
    {
      this.conf := conf;
      statusFollower := new ServiceStateCombiner(seq(DependencyCount(conf), _ => false));
      floatControlPresent := HasFloatControlService(conf);
      subscribed := false;
      active := false;
      events := [];
    }

    /** `start`: subscribe to the aggregator (which delivers its status at once), then start the listener, then the control service if present. */
    method Start()
      requires Valid() && !subscribed
      modifies this
      ensures Valid() && subscribed && active == statusFollower.Active()
      ensures floatControlPresent == old(floatControlPresent)
      ensures events == old(events) + StartEvents(floatControlPresent, active)
    {
      subscribed := true;
      events := events + [Subscribed];
      active := statusFollower.Active();
      events := events + [ActiveSet(active)];
      events := events + [ListenerStarted];
      if floatControlPresent {
        events := events + [ControlStarted];
      }
    }

    /** Dependency `i` (0 listener, 1 control service) reports `status`; while subscribed the supervisor mirrors the aggregate. */
    method DependencyChanged(i: nat, status: bool)
      requires Valid() && i < |statusFollower.statuses|
      modifies statusFollower, this
      ensures Valid() && subscribed == old(subscribed) && floatControlPresent == old(floatControlPresent)
      ensures statusFollower.statuses == old(statusFollower.statuses)[i := status]
      ensures active <==> subscribed && forall j :: 0 <= j < |statusFollower.statuses| ==> statusFollower.statuses[j]
      ensures events == old(events) +
                (if subscribed && active != old(active) then [ActiveSet(active)] else [])
    {
      var changed := statusFollower.Update(i, status);
      if subscribed && changed {
        active := statusFollower.Active();
        events := events + [ActiveSet(active)];
      }
    }

    /** `stop`: go inactive, stop and drop the control service, stop the listener, unsubscribe. */
    method Stop()
      requires Valid()
      modifies this
      ensures Valid()
      ensures !active && !floatControlPresent && !subscribed
      ensures events == old(events) + StopEvents(old(floatControlPresent), old(subscribed))
    {
      active := false;
      events := events + [ActiveSet(false)];
      if floatControlPresent {
        events := events + [ControlStopped];
      }
      floatControlPresent := false;
      events := events + [ListenerStopped];
      if subscribed {
        events := events + [Unsubscribed];
      }
      subscribed := false;
    }
  }

  /**
   * `init`: construction fails on a FloatOuter configuration with HA
   * settings, after the listener object is built but before the control
   * service is created and before anything is started; otherwise the
   * supervisor is built with the control service exactly in FloatOuter mode.
   */
  method Create(conf: FirewallConfiguration) returns (s: FloatSupervisorService?, error: Option<ConfigurationError>)
    ensures s == null <==> conf.firewallMode == FloatOuter && conf.haConfig.Some?
    ensures error.Some? <==> s == null
    ensures s != null ==> fresh(s) && fresh(s.statusFollower) && s.Valid() && s.conf == conf &&
                          s.floatControlPresent == (conf.firewallMode == FloatOuter) &&
                          !s.subscribed && !s.active && s.events == []
  {
    error := CheckConfiguration(conf);
    if error.Some? {
      s := null;
    } else {
      s := new FloatSupervisorService(conf);
    }
  }

  /**
   * Stopping drops the control service for good: a later `start` starts only
   * the listener, and a second `stop` stops nothing but the listener.
   */
  method StopThenRestart(s: FloatSupervisorService)
    requires s.Valid()
    modifies s
    ensures s.Valid() && !s.floatControlPresent
    ensures s.events == old(s.events) + StopEvents(old(s.floatControlPresent), old(s.subscribed)) +
                        StartEvents(false, s.statusFollower.Active()) + StopEvents(false, true)
    ensures ControlStarted !in s.events[|old(s.events)|..]
  {
    s.Stop();
    s.Start();
    s.Stop();
  }
}
