/**
 * The client's main flow as an event log: validate the particle option,
 * initialise the sensor, then per sample read and publish. The source loops
 * forever; the model runs one cycle per given sample, so a finite prefix of
 * the endless loop is described.
 */
module PublishLoop {
  import opened SensorConstants
  import opened Bus
  import opened Payload
  import opened ParticleSelection
  import opened SensorSession
  import opened Broker

  /**
   * One observable step: a sensor operation or a publish. A publish carries the
   * payload fields; the message body sent is their JSON object, Json(payload).
   */
  datatype Event = Hw(op: HwOp) | Publish(topic: string, payload: PayloadMap, qos: QoS)

  /** What distinguishes the two clients' loops. */
  datatype Client = Client(period: CyclePeriod, format: Format, qos: QoS)

  function Lift(ops: seq<HwOp>): seq<Event> {
    seq(|ops|, i requires 0 <= i < |ops| => Hw(ops[i]))
  }

  /** One loop iteration: read one sample, then publish its payload. */
  function Cycle(c: Client, topic: string, simulation: bool, sample: Readings): seq<Event> {
    var r := ReadSensor(c.format, simulation, sample);
    Lift(r.ops) + [Publish(topic, r.payload, c.qos)]
  }

  /** The iterations for the given samples, in acquisition order. */
  function Cycles(c: Client, topic: string, simulation: bool, samples: seq<Readings>): seq<Event>
    decreases |samples|
  {
    if |samples| == 0 then []
    else Cycle(c, topic, simulation, samples[0]) + Cycles(c, topic, simulation, samples[1..])
  }

  /** The whole run: validation, initialisation, then one iteration per sample. */
  function Run(c: Client, topic: string, particle: SensorArg, simulation: bool, samples: seq<Readings>): seq<Event> {
    var sensor := Validate(particle).sensor;
    Lift(Initialise(sensor, c.period, simulation).ops) + Cycles(c, topic, simulation, samples)
  }

  /** The payloads published in a log, in order. */
  function Published(es: seq<Event>): seq<PayloadMap> {
    if |es| == 0 then []
    else (if es[0].Publish? then [es[0].payload] else []) + Published(es[1..])
  }

  /** The payload a loop iteration publishes for a sample. */
  function PayloadFor(c: Client, simulation: bool, sample: Readings): PayloadMap {
    ReadSensor(c.format, simulation, sample).payload
  }

  lemma {:induction false} PublishedAppend(a: seq<Event>, b: seq<Event>)
    ensures Published(a + b) == Published(a) + Published(b)
    decreases |a|
  {
    if |a| == 0 {
      assert a + b == b;
    } else {
      var head := if a[0].Publish? then [a[0].payload] else [];
      assert (a + b)[0] == a[0];
      assert (a + b)[1..] == a[1..] + b;
      assert Published(a + b) == head + Published(a[1..] + b);
      PublishedAppend(a[1..], b);
      assert Published(a) == head + Published(a[1..]);
    }
  }

  lemma {:induction false} PublishedLift(ops: seq<HwOp>)
    ensures Published(Lift(ops)) == []
    decreases |ops|
  {
    if |ops| > 0 {
      assert Lift(ops)[1..] == Lift(ops[1..]);
      PublishedLift(ops[1..]);
    }
  }

  /** Each iteration publishes exactly its own sample's payload. */
  lemma CyclePublishesOnce(c: Client, topic: string, simulation: bool, sample: Readings)
    ensures Published(Cycle(c, topic, simulation, sample)) == [PayloadFor(c, simulation, sample)]
  {
    var r := ReadSensor(c.format, simulation, sample);
    var last := [Publish(topic, r.payload, c.qos)];
    PublishedAppend(Lift(r.ops), last);
    PublishedLift(r.ops);
    assert last[1..] == [];
  }

  /** The payloads of the samples, in order. */
  function PayloadsFor(c: Client, simulation: bool, samples: seq<Readings>): seq<PayloadMap>
    decreases |samples|
  {
    if |samples| == 0 then [] else [PayloadFor(c, simulation, samples[0])] + PayloadsFor(c, simulation, samples[1..])
  }

  /** PayloadsFor holds the k-th sample's payload at position k. */
  lemma {:induction false} PayloadsForIndex(c: Client, simulation: bool, samples: seq<Readings>)
    ensures |PayloadsFor(c, simulation, samples)| == |samples|
    ensures forall k :: 0 <= k < |samples| ==> PayloadsFor(c, simulation, samples)[k] == PayloadFor(c, simulation, samples[k])
    decreases |samples|
  {
    if |samples| > 0 {
      var rest := samples[1..];
      PayloadsForIndex(c, simulation, rest);
      var all := PayloadsFor(c, simulation, samples);
      assert all == [PayloadFor(c, simulation, samples[0])] + PayloadsFor(c, simulation, rest);
      forall k | 0 < k < |samples|
        ensures all[k] == PayloadFor(c, simulation, samples[k])
      {
        assert all[k] == PayloadsFor(c, simulation, rest)[k - 1];
        assert samples[k] == rest[k - 1];
      }
    }
  }

  /** Samples are published one payload each, in acquisition order. */
  lemma {:induction false} CyclesPublishInOrder(c: Client, topic: string, simulation: bool, samples: seq<Readings>)
    ensures Published(Cycles(c, topic, simulation, samples)) == PayloadsFor(c, simulation, samples)
    decreases |samples|
  {
    if |samples| > 0 {
      var rest := samples[1..];
      PublishedAppend(Cycle(c, topic, simulation, samples[0]), Cycles(c, topic, simulation, rest));
      CyclePublishesOnce(c, topic, simulation, samples[0]);
      CyclesPublishInOrder(c, topic, simulation, rest);
    }
  }

  /** A run publishes exactly one payload per sample, in acquisition order (FIFO). */
  lemma RunPublishesInOrder(c: Client, topic: string, particle: SensorArg, simulation: bool, samples: seq<Readings>)
    ensures Published(Run(c, topic, particle, simulation, samples))
         == seq(|samples|, k requires 0 <= k < |samples| => PayloadFor(c, simulation, samples[k]))
  {
    var init := Initialise(Validate(particle).sensor, c.period, simulation).ops;
    PublishedAppend(Lift(init), Cycles(c, topic, simulation, samples));
    PublishedLift(init);
    CyclesPublishInOrder(c, topic, simulation, samples);
    PayloadsForIndex(c, simulation, samples);
  }

  /** Every publish of the iterations goes to the client's topic with its QoS. */
  lemma {:induction false} CyclesPublishOnTopic(c: Client, topic: string, simulation: bool, samples: seq<Readings>)
    ensures forall e :: e in Cycles(c, topic, simulation, samples) && e.Publish? ==> e.topic == topic && e.qos == c.qos
    decreases |samples|
  {
    if |samples| > 0 {
      CyclesPublishOnTopic(c, topic, simulation, samples[1..]);
    }
  }

  /** In simulation mode the iterations issue no sensor operation at all. */
  lemma {:induction false} CyclesSimulatedOnlyPublish(c: Client, topic: string, samples: seq<Readings>)
    ensures forall e :: e in Cycles(c, topic, true, samples) ==> e.Publish?
    decreases |samples|
  {
    if |samples| > 0 {
      CyclesSimulatedOnlyPublish(c, topic, samples[1..]);
    }
  }

  /** Every publish in es is immediately preceded by the events of prefix. */
  ghost predicate PublishesPrecededBy(es: seq<Event>, prefix: seq<Event>) {
    forall i :: 0 <= i < |es| && es[i].Publish? ==> |prefix| <= i && es[i - |prefix|..i] == prefix
  }

  /** Putting prefix and one publish in front of a log keeps every publish preceded by prefix. */
  lemma PrependPreceded(prefix: seq<Event>, p: Event, rest: seq<Event>)
    requires forall e :: e in prefix ==> !e.Publish?
    requires PublishesPrecededBy(rest, prefix)
    ensures PublishesPrecededBy(prefix + [p] + rest, prefix)
  {
    var es := prefix + [p] + rest;
    var n := |prefix|;
    forall i | 0 <= i < |es| && es[i].Publish?
      ensures n <= i && es[i - n..i] == prefix
    {
      if i == n {
        assert es[0..n] == prefix;
      } else if n < i {
        assert es[i] == rest[i - n - 1];
        assert es[i - n..i] == rest[i - n - 1 - n..i - n - 1];
      }
    }
  }

  /**
   * In hardware mode every publish is immediately preceded by a complete
   * read cycle: the ready wait and the five block reads.
   */
  lemma {:induction false} CyclesReadBeforePublish(c: Client, topic: string, samples: seq<Readings>)
    ensures PublishesPrecededBy(Cycles(c, topic, false, samples), Lift(ReadOps(false)))
    decreases |samples|
  {
    if |samples| > 0 {
      CyclesReadBeforePublish(c, topic, samples[1..]);
      PrependPreceded(Lift(ReadOps(false)), Publish(topic, PayloadFor(c, false, samples[0]), c.qos),
        Cycles(c, topic, false, samples[1..]));
    }
  }

  /** Putting publish-free events in front of a log keeps every publish preceded by prefix. */
  lemma PrependQuiet(init: seq<Event>, prefix: seq<Event>, rest: seq<Event>)
    requires forall e :: e in init ==> !e.Publish?
    requires PublishesPrecededBy(rest, prefix)
    ensures PublishesPrecededBy(init + rest, prefix)
  {
    var es := init + rest;
    var n := |init|;
    forall i | 0 <= i < |es| && es[i].Publish?
      ensures |prefix| <= i && es[i - |prefix|..i] == prefix
    {
      if n <= i {
        assert es[i] == rest[i - n];
        assert es[i - |prefix|..i] == rest[i - n - |prefix|..i - n];
      }
    }
  }

  /** Every publish of a run goes to the client's topic with its QoS. */
  lemma RunPublishesOnTopic(c: Client, topic: string, particle: SensorArg, simulation: bool, samples: seq<Readings>)
    ensures forall e :: e in Run(c, topic, particle, simulation, samples) && e.Publish? ==> e.topic == topic && e.qos == c.qos
  {
    CyclesPublishOnTopic(c, topic, simulation, samples);
  }

  /** A simulated run issues no sensor operation: initialisation and reads are skipped entirely. */
  lemma RunSimulatedOnlyPublish(c: Client, topic: string, particle: SensorArg, samples: seq<Readings>)
    ensures forall e :: e in Run(c, topic, particle, true, samples) ==> e.Publish?
  {
    CyclesSimulatedOnlyPublish(c, topic, samples);
    assert Run(c, topic, particle, true, samples) == Cycles(c, topic, true, samples);
  }

  /** In a hardware run every publish is immediately preceded by a complete read cycle. */
  lemma RunReadBeforePublish(c: Client, topic: string, particle: SensorArg, samples: seq<Readings>)
    ensures PublishesPrecededBy(Run(c, topic, particle, false, samples), Lift(ReadOps(false)))
  {
    CyclesReadBeforePublish(c, topic, samples);
    PrependQuiet(Lift(Initialise(Validate(particle).sensor, c.period, false).ops), Lift(ReadOps(false)),
      Cycles(c, topic, false, samples));
  }

  /** One hardware iteration: the read cycle, then the publish of the sample's payload. */
  lemma CycleHardware(c: Client, topic: string, sample: Readings)
    ensures Cycle(c, topic, false, sample) == Lift(ReadOps(false)) + [Publish(topic, PayloadFor(c, false, sample), c.qos)]
    ensures |Cycle(c, topic, false, sample)| == 7
  {
  }

  /** Behind a seven-event head, the k-th block of seven is the tail's (k-1)-th. */
  lemma BlockShift(head: seq<Event>, tail: seq<Event>, k: int)
    requires |head| == 7 && 0 < k && 7 * k + 7 <= |head| + |tail|
    ensures (head + tail)[7 * k .. 7 * k + 7] == tail[7 * (k - 1) .. 7 * (k - 1) + 7]
  {
  }

  /**
   * In hardware mode the iterations are back-to-back blocks of seven events:
   * the ready wait, the five reads, then the publish of that sample's payload.
   */
  lemma {:induction false} CyclesHardwareBlocks(c: Client, topic: string, samples: seq<Readings>)
    ensures |Cycles(c, topic, false, samples)| == 7 * |samples|
    ensures forall k :: 0 <= k < |samples| ==>
      Cycles(c, topic, false, samples)[7 * k .. 7 * k + 7]
        == Lift(ReadOps(false)) + [Publish(topic, PayloadFor(c, false, samples[k]), c.qos)]
    decreases |samples|
  {
    if |samples| > 0 {
      var rest := samples[1..];
      CyclesHardwareBlocks(c, topic, rest);
      CycleHardware(c, topic, samples[0]);
      var head := Cycle(c, topic, false, samples[0]);
      var tail := Cycles(c, topic, false, rest);
      var all := Cycles(c, topic, false, samples);
      assert all == head + tail;
      forall k | 0 <= k < |samples|
        ensures all[7 * k .. 7 * k + 7] == Lift(ReadOps(false)) + [Publish(topic, PayloadFor(c, false, samples[k]), c.qos)]
      {
        if k == 0 {
          assert all[0..7] == head;
        } else {
          BlockShift(head, tail, k);
          assert samples[k] == rest[k - 1];
        }
      }
    }
  }

  /** The hardware iterations issue no sensor operation but the ready wait and block reads. */
  lemma {:induction false} CyclesOnlyRead(c: Client, topic: string, samples: seq<Readings>)
    ensures forall e :: e in Cycles(c, topic, false, samples) && e.Hw? ==> e.op == AwaitReady || e.op.ReadBlock?
    decreases |samples|
  {
    if |samples| > 0 {
      CyclesOnlyRead(c, topic, samples[1..]);
    }
  }

  /** Blocks of hardware iterations keep their shape behind any prefix. */
  lemma BlocksBehind(init: seq<Event>, rest: seq<Event>, c: Client, topic: string, samples: seq<Readings>)
    requires |rest| == 7 * |samples|
    requires forall k :: 0 <= k < |samples| ==>
      rest[7 * k .. 7 * k + 7] == Lift(ReadOps(false)) + [Publish(topic, PayloadFor(c, false, samples[k]), c.qos)]
    ensures |init + rest| == |init| + 7 * |samples|
    ensures forall k :: 0 <= k < |samples| ==>
      (init + rest)[|init| + 7 * k .. |init| + 7 * k + 7]
        == Lift(ReadOps(false)) + [Publish(topic, PayloadFor(c, false, samples[k]), c.qos)]
  {
    forall k | 0 <= k < |samples|
      ensures (init + rest)[|init| + 7 * k .. |init| + 7 * k + 7] == rest[7 * k .. 7 * k + 7]
    {
    }
  }

  /**
   * A hardware run is the initialisation log followed by exactly one
   * seven-event block per sample: the read cycle, then that sample's publish.
   */
  lemma RunHardwareBlocks(c: Client, topic: string, particle: SensorArg, samples: seq<Readings>)
    ensures var init := Lift(Initialise(Validate(particle).sensor, c.period, false).ops);
      var es := Run(c, topic, particle, false, samples);
      && |es| == |init| + 7 * |samples|
      && forall k :: 0 <= k < |samples| ==>
           es[|init| + 7 * k .. |init| + 7 * k + 7]
             == Lift(ReadOps(false)) + [Publish(topic, PayloadFor(c, false, samples[k]), c.qos)]
  {
    var init := Lift(Initialise(Validate(particle).sensor, c.period, false).ops);
    var cycles := Cycles(c, topic, false, samples);
    assert Run(c, topic, particle, false, samples) == init + cycles;
    CyclesHardwareBlocks(c, topic, samples);
    BlocksBehind(init, cycles, c, topic, samples);
  }

  /** After initialisation a hardware run only waits for READY and reads; it writes nothing. */
  lemma RunOnlyReadsAfterInitialise(c: Client, topic: string, particle: SensorArg, samples: seq<Readings>)
    ensures var init := Lift(Initialise(Validate(particle).sensor, c.period, false).ops);
      var es := Run(c, topic, particle, false, samples);
      forall i :: |init| <= i < |es| && es[i].Hw? ==> es[i].op == AwaitReady || es[i].op.ReadBlock?
  {
    var init := Lift(Initialise(Validate(particle).sensor, c.period, false).ops);
    var cycles := Cycles(c, topic, false, samples);
    var es := Run(c, topic, particle, false, samples);
    assert es == init + cycles;
    CyclesOnlyRead(c, topic, samples);
    forall i | |init| <= i < |es| && es[i].Hw?
      ensures es[i].op == AwaitReady || es[i].op.ReadBlock?
    {
      assert es[i] == cycles[i - |init|];
    }
  }

  /** A run begins with the initialisation log of the validated particle option. */
  lemma RunStartsWithInitialise(c: Client, topic: string, particle: SensorArg, simulation: bool, samples: seq<Readings>)
    ensures Lift(Initialise(Validate(particle).sensor, c.period, simulation).ops) <= Run(c, topic, particle, simulation, samples)
  {
  }
}
