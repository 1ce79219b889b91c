/**
 * The plain MQTT client: a 100-second cycle, readings at one or two decimals
 * with the raw pressure and the air-quality category, published with the
 * client library's default QoS 0 to "metriful/<sensor name>".
 */
module MqttClient {
  import opened Wrappers
  import opened SensorConstants
  import opened Bus
  import opened Payload
  import opened ParticleSelection
  import SensorSession
  import opened Topics
  import opened Broker
  import opened PublishLoop

  /** The loop settings of this client. */
  const Settings: Client := Client(CyclePeriod100s, MqttFormat, AtMostOnce)

  /** The particle option, resolved to a sensor; unknown names select none. */
  function ValidateParticleSensor(arg: SensorArg): (sensor: ParticleSensor)
    ensures sensor == PPD42 <==> arg == Name("PPD42")
    ensures sensor == SDS011 <==> arg == Name("SDS011")
    ensures sensor == Off <==> arg == OffSentinel || (arg.Name? && arg.name !in ValidSensors)
  {
    Validate(arg).sensor
  }

  /** Sensor start-up with the validated sensor. */
  function InitialiseSensor(sensor: ParticleSensor, simulation: bool): (r: SensorSession.Initialised)
    ensures simulation ==> r.ops == [] && r.bus == None
    ensures !simulation ==> |r.ops| == (if sensor == Off then 2 else 3)
    ensures !simulation ==> r.bus.Some? && (WritesRegister(r.ops, ParticleSensorSelectReg) <==> sensor != Off)
    ensures forall i :: 0 <= i < |r.ops| && r.ops[i].WriteBlock? && r.ops[i].reg == ParticleSensorSelectReg ==>
      i == 0 && r.ops[i].data == [SensorCode(sensor)]
    ensures !simulation ==> WriteBlock(CycleTimePeriodReg, [PeriodCode(CyclePeriod100s)]) in r.ops
    ensures !simulation ==>
      |r.ops| > 0 && r.ops[|r.ops| - 1] == WriteByte(CycleModeCmd) && WriteByte(CycleModeCmd) !in r.ops[..|r.ops| - 1]
    ensures !simulation ==> Replay(PowerOn, r.ops) == DeviceState(sensor, Some(CyclePeriod100s), true)
  {
    SensorSession.Initialise(sensor, Settings.period, simulation)
  }

  /** One sample: the operations issued and the payload built. */
  function ReadSensor(simulation: bool, sample: Readings): (r: SensorSession.SensorRead)
    ensures r.ops == SensorSession.ReadOps(simulation)
    ensures !simulation ==> |r.ops| > 0 && r.ops[0] == AwaitReady && ReadCount(r.ops) == 5 && RegionsRead(r.ops) == ReadOrder
    ensures !simulation ==>
      forall i :: 0 <= i < |r.ops| && r.ops[i].ReadBlock? ==> RegionOf(r.ops[i].reg).Some? && r.ops[i].count == DataBytes(RegionOf(r.ops[i].reg).value)
    ensures !simulation ==> r.payload.Keys == NumericKeys + {AqiString} && |r.payload| == 11
    ensures !simulation ==> r.payload[Pressure] == Number(sample.pressure) && r.payload[AqiString] == AqiLabel(sample.aqi)
    ensures !simulation ==>
      forall k :: k in r.payload && k != Pressure && k != AqiString ==>
        r.payload[k].Fixed? && r.payload[k].x == Quantity(k, sample) && r.payload[k].places == (if k in OneDecimalKeys then 1 else 2)
    ensures simulation ==> r.ops == [] && r.payload == SimulatedPayload() && |r.payload| == 11
  {
    KeyCounts();
    SensorSession.ReadSensor(Settings.format, simulation, sample)
  }

  /** The publish topic of a sensor. */
  function TopicName(sensorName: string): (t: string)
    ensures t == "metriful/" + sensorName
    ensures SensorNameOf(MqttPrefix, t) == Some(sensorName)
  {
    TopicsRoundTrip(sensorName);
    MqttTopic(sensorName)
  }

  /** The client's run over the given samples, after the connection is up. */
  function Session(sensorName: string, particle: SensorArg, simulation: bool, samples: seq<Readings>): seq<Event> {
    Run(Settings, TopicName(sensorName), particle, simulation, samples)
  }

  /** A run publishes one payload per sample, in order, each to the sensor's topic with this client's QoS. */
  lemma SessionPublishes(sensorName: string, particle: SensorArg, simulation: bool, samples: seq<Readings>)
    ensures var es := Session(sensorName, particle, simulation, samples);
      && Published(es) == seq(|samples|, k requires 0 <= k < |samples| => PayloadFor(Settings, simulation, samples[k]))
      && forall e :: e in es && e.Publish? ==> e.topic == TopicName(sensorName) && e.qos == AtMostOnce
  {
    var topic := TopicName(sensorName);
    RunPublishesInOrder(Settings, topic, particle, simulation, samples);
    RunPublishesOnTopic(Settings, topic, particle, simulation, samples);
  }

  /**
   * A run first initialises the sensor for the validated particle option; in
   * simulation it touches no hardware; in hardware mode each publish follows a
   * complete read cycle, and after initialisation the sensor is only read.
   */
  lemma SessionSensorOrder(sensorName: string, particle: SensorArg, simulation: bool, samples: seq<Readings>)
    ensures var es := Session(sensorName, particle, simulation, samples);
      var init := Lift(InitialiseSensor(ValidateParticleSensor(particle), simulation).ops);
      && init <= es
      && (simulation ==> forall e :: e in es ==> e.Publish?)
      && (!simulation ==> PublishesPrecededBy(es, Lift(SensorSession.ReadOps(false))))
      && (!simulation ==> forall i :: |init| <= i < |es| && es[i].Hw? ==> es[i].op == AwaitReady || es[i].op.ReadBlock?)
  {
    var topic := TopicName(sensorName);
    assert InitialiseSensor(ValidateParticleSensor(particle), simulation)
        == SensorSession.Initialise(Validate(particle).sensor, Settings.period, simulation);
    RunStartsWithInitialise(Settings, topic, particle, simulation, samples);
    RunSimulatedOnlyPublish(Settings, topic, particle, samples);
    RunReadBeforePublish(Settings, topic, particle, samples);
    RunOnlyReadsAfterInitialise(Settings, topic, particle, samples);
  }

  /**
   * In hardware mode the run after initialisation is exactly one read cycle
   * and one publish per sample, in acquisition order.
   */
  lemma SessionHardwareLoop(sensorName: string, particle: SensorArg, samples: seq<Readings>)
    ensures var es := Session(sensorName, particle, false, samples);
      var init := Lift(InitialiseSensor(ValidateParticleSensor(particle), false).ops);
      && |es| == |init| + 7 * |samples|
      && forall k :: 0 <= k < |samples| ==>
           es[|init| + 7 * k .. |init| + 7 * k + 7]
             == Lift(SensorSession.ReadOps(false)) + [Publish(TopicName(sensorName), PayloadFor(Settings, false, samples[k]), AtMostOnce)]
  {
    var topic := TopicName(sensorName);
    var es := Session(sensorName, particle, false, samples);
    var init := Lift(InitialiseSensor(ValidateParticleSensor(particle), false).ops);
    assert es == Run(Settings, topic, particle, false, samples);
    assert init == Lift(SensorSession.Initialise(Validate(particle).sensor, Settings.period, false).ops);
    RunHardwareBlocks(Settings, topic, particle, samples);
    assert Settings.qos == AtMostOnce;
  }
}
