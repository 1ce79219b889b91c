/**
 * The AWS IoT client: a 3-second cycle, every reading to two decimals without
 * the air-quality category, publishes at least once to the rule-routed topic,
 * and a resubscribe after a resumed connection that lost its session.
 */
module AwsIotClient {
  import opened Wrappers
  import opened SensorConstants
  import opened Bus
  import opened Payload
  import opened ParticleSelection
  import SensorSession
  import opened Topics
  import opened Broker
  import opened PublishLoop

  /** The loop settings of this client. */
  const Settings: Client := Client(CyclePeriod3s, AwsFormat, AtLeastOnce)

  /** The particle option, resolved to a sensor; unknown names select none. */
  function ValidateParticleSensor(arg: SensorArg): (sensor: ParticleSensor)
    ensures sensor == PPD42 <==> arg == Name("PPD42")
    ensures sensor == SDS011 <==> arg == Name("SDS011")
    ensures sensor == Off <==> arg == OffSentinel || (arg.Name? && arg.name !in ValidSensors)
  {
    Validate(arg).sensor
  }

  /** Sensor start-up with the validated sensor. */
  function InitialiseSensor(sensor: ParticleSensor, simulation: bool): (r: SensorSession.Initialised)
    ensures simulation ==> r.ops == [] && r.bus == None
    ensures !simulation ==> |r.ops| == (if sensor == Off then 2 else 3)
    ensures !simulation ==> r.bus.Some? && (WritesRegister(r.ops, ParticleSensorSelectReg) <==> sensor != Off)
    ensures forall i :: 0 <= i < |r.ops| && r.ops[i].WriteBlock? && r.ops[i].reg == ParticleSensorSelectReg ==>
      i == 0 && r.ops[i].data == [SensorCode(sensor)]
    ensures !simulation ==> WriteBlock(CycleTimePeriodReg, [PeriodCode(CyclePeriod3s)]) in r.ops
    ensures !simulation ==>
      |r.ops| > 0 && r.ops[|r.ops| - 1] == WriteByte(CycleModeCmd) && WriteByte(CycleModeCmd) !in r.ops[..|r.ops| - 1]
    ensures !simulation ==> Replay(PowerOn, r.ops) == DeviceState(sensor, Some(CyclePeriod3s), true)
  {
    SensorSession.Initialise(sensor, Settings.period, simulation)
  }

  /** One sample: the operations issued and the payload built. */
  function ReadSensor(simulation: bool, sample: Readings): (r: SensorSession.SensorRead)
    ensures r.ops == SensorSession.ReadOps(simulation)
    ensures !simulation ==> |r.ops| > 0 && r.ops[0] == AwaitReady && ReadCount(r.ops) == 5 && RegionsRead(r.ops) == ReadOrder
    ensures !simulation ==>
      forall i :: 0 <= i < |r.ops| && r.ops[i].ReadBlock? ==> RegionOf(r.ops[i].reg).Some? && r.ops[i].count == DataBytes(RegionOf(r.ops[i].reg).value)
    ensures !simulation ==> r.payload.Keys == NumericKeys && |r.payload| == 10 && AqiString !in r.payload
    ensures !simulation ==> forall k :: k in r.payload ==> r.payload[k] == Fixed(Quantity(k, sample), 2)
    ensures simulation ==> r.ops == [] && r.payload == SimulatedPayload() && |r.payload| == 11
  {
    KeyCounts();
    SensorSession.ReadSensor(Settings.format, simulation, sample)
  }

  /** The publish topic of a sensor. */
  function TopicName(sensorName: string): (t: string)
    ensures t == "$aws/rules/log_metriful/" + sensorName
    ensures SensorNameOf(AwsPrefix, t) == Some(sensorName)
  {
    TopicsRoundTrip(sensorName);
    AwsTopic(sensorName)
  }

  /** The client's run over the given samples, after the connection is up. */
  function Session(sensorName: string, particle: SensorArg, simulation: bool, samples: seq<Readings>): seq<Event> {
    Run(Settings, TopicName(sensorName), particle, simulation, samples)
  }

  /** A run publishes one payload per sample, in order, each to the sensor's topic with this client's QoS. */
  lemma SessionPublishes(sensorName: string, particle: SensorArg, simulation: bool, samples: seq<Readings>)
    ensures var es := Session(sensorName, particle, simulation, samples);
      && Published(es) == seq(|samples|, k requires 0 <= k < |samples| => PayloadFor(Settings, simulation, samples[k]))
      && forall e :: e in es && e.Publish? ==> e.topic == TopicName(sensorName) && e.qos == AtLeastOnce
  {
    var topic := TopicName(sensorName);
    RunPublishesInOrder(Settings, topic, particle, simulation, samples);
    RunPublishesOnTopic(Settings, topic, particle, simulation, samples);
  }

  /**
   * A run first initialises the sensor for the validated particle option; in
   * simulation it touches no hardware; in hardware mode each publish follows a
   * complete read cycle, and after initialisation the sensor is only read.
   */
  lemma SessionSensorOrder(sensorName: string, particle: SensorArg, simulation: bool, samples: seq<Readings>)
    ensures var es := Session(sensorName, particle, simulation, samples);
      var init := Lift(InitialiseSensor(ValidateParticleSensor(particle), simulation).ops);
      && init <= es
      && (simulation ==> forall e :: e in es ==> e.Publish?)
      && (!simulation ==> PublishesPrecededBy(es, Lift(SensorSession.ReadOps(false))))
      && (!simulation ==> forall i :: |init| <= i < |es| && es[i].Hw? ==> es[i].op == AwaitReady || es[i].op.ReadBlock?)
  {
    var topic := TopicName(sensorName);
    assert InitialiseSensor(ValidateParticleSensor(particle), simulation)
        == SensorSession.Initialise(Validate(particle).sensor, Settings.period, simulation);
    RunStartsWithInitialise(Settings, topic, particle, simulation, samples);
    RunSimulatedOnlyPublish(Settings, topic, particle, samples);
    RunReadBeforePublish(Settings, topic, particle, samples);
    RunOnlyReadsAfterInitialise(Settings, topic, particle, samples);
  }

  /**
   * In hardware mode the run after initialisation is exactly one read cycle
   * and one publish per sample, in acquisition order.
   */
  lemma SessionHardwareLoop(sensorName: string, particle: SensorArg, samples: seq<Readings>)
    ensures var es := Session(sensorName, particle, false, samples);
      var init := Lift(InitialiseSensor(ValidateParticleSensor(particle), false).ops);
      && |es| == |init| + 7 * |samples|
      && forall k :: 0 <= k < |samples| ==>
           es[|init| + 7 * k .. |init| + 7 * k + 7]
             == Lift(SensorSession.ReadOps(false)) + [Publish(TopicName(sensorName), PayloadFor(Settings, false, samples[k]), AtLeastOnce)]
  {
    var topic := TopicName(sensorName);
    var es := Session(sensorName, particle, false, samples);
    var init := Lift(InitialiseSensor(ValidateParticleSensor(particle), false).ops);
    assert es == Run(Settings, topic, particle, false, samples);
    assert init == Lift(SensorSession.Initialise(Validate(particle).sensor, Settings.period, false).ops);
    RunHardwareBlocks(Settings, topic, particle, samples);
    assert Settings.qos == AtLeastOnce;
  }

  /** What the resumed-connection handler does. */
  datatype ResumeAction = Resubscribe | KeepSubscriptions

  /** The handler for a resumed connection. */
  function OnConnectionResumed(rc: ConnectReturnCode, sessionPresent: bool): (action: ResumeAction)
    ensures action == Resubscribe <==> rc == Accepted && !sessionPresent
  {
    if rc == Accepted && !sessionPresent then Resubscribe else KeepSubscriptions
  }

  /** The broker's answer for one topic: the granted QoS, or None when it rejected it. */
  datatype Grant = Grant(topic: string, qos: Option<QoS>)

  /**
   * The outcome of the resubscribe check: all granted, or the rejected topic it
   * reports. The report is a `SystemExit` raised on the connection's event-loop
   * thread, so it ends that callback, not the publishing process.
   */
  datatype Completion = AllGranted | Rejected(topic: string)

  /** The resubscribe check: stops at, and reports, the first topic granted no QoS. */
  function OnResubscribeComplete(results: seq<Grant>): (c: Completion)
    ensures c.Rejected? <==> exists i :: 0 <= i < |results| && results[i].qos.None?
    ensures c.Rejected? ==>
      exists i :: 0 <= i < |results| && results[i] == Grant(c.topic, None) && forall j :: 0 <= j < i ==> results[j].qos.Some?
    decreases |results|
  {
    if |results| == 0 then AllGranted
    else if results[0].qos.None? then Rejected(results[0].topic)
    else OnResubscribeComplete(results[1..])
  }

  /** The topics the broker answered for. */
  function TopicsOf(results: seq<Grant>): set<string> {
    set i | 0 <= i < |results| :: results[i].topic
  }

  /** The topics the broker granted. */
  function GrantedTopics(results: seq<Grant>): set<string> {
    set i | 0 <= i < |results| && results[i].qos.Some? :: results[i].topic
  }

  /** The broker answers once per topic. */
  predicate DistinctTopics(results: seq<Grant>) {
    forall i, j :: 0 <= i < j < |results| ==> results[i].topic != results[j].topic
  }

  /**
   * The subscriptions the broker holds after a resume: all of them when the
   * session persisted, otherwise only those granted again by a resubscribe.
   */
  function HeldAfterResume(held: set<string>, sessionPresent: bool, resubscribed: bool, results: seq<Grant>): set<string> {
    if sessionPresent then held else if resubscribed then GrantedTopics(results) else {}
  }

  /** The check reports a rejection exactly when some answered topic ends up without a subscription. */
  lemma CompletionDetectsLoss(results: seq<Grant>)
    requires DistinctTopics(results)
    ensures OnResubscribeComplete(results).Rejected? <==> GrantedTopics(results) != TopicsOf(results)
  {
    if OnResubscribeComplete(results).Rejected? {
      var i :| 0 <= i < |results| && results[i].qos.None?;
      assert results[i].topic in TopicsOf(results);
      assert results[i].topic !in GrantedTopics(results);
    } else {
      assert forall i :: 0 <= i < |results| ==> results[i].qos.Some?;
    }
  }

  /**
   * After an accepted resume, the handler and the check together report no
   * rejection exactly when every subscription held before is held again: a
   * lost session is resubscribed, and the check reports the first topic the
   * broker refused.
   */
  lemma ResumeKeepsSubscriptions(held: set<string>, rc: ConnectReturnCode, sessionPresent: bool, results: seq<Grant>)
    requires rc == Accepted
    requires TopicsOf(results) == held && DistinctTopics(results)
    ensures var action := OnConnectionResumed(rc, sessionPresent);
      (action == Resubscribe ==> OnResubscribeComplete(results) == AllGranted)
      <==> HeldAfterResume(held, sessionPresent, action == Resubscribe, results) == held
  {
    CompletionDetectsLoss(results);
  }
}
