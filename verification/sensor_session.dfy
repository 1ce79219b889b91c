/**
 * The sensor session shared by both clients: initialisation (particle-sensor
 * select, cycle period, cycle mode) and one read cycle (wait for READY, then
 * five block reads), each as the operation log it issues. In simulation mode
 * the bus is never touched.
 */
module SensorSession {
  import opened Wrappers
  import opened SensorConstants
  import opened Bus
  import opened Payload

  /** The bus handle the hardware set-up returns. */
  datatype I2CBus = I2CBus

  /** The operations initialisation issued, and the handle it returns (None in simulation). */
  datatype Initialised = Initialised(ops: seq<HwOp>, bus: Option<I2CBus>)

  /** Initialisation with an already validated sensor and a client's cycle period. */
  function Initialise(sensor: ParticleSensor, period: CyclePeriod, simulation: bool): (r: Initialised)
    ensures simulation <==> r.bus.None?
    ensures simulation ==> r.ops == []
    ensures !simulation ==> |r.ops| == (if sensor == Off then 2 else 3)
    ensures !simulation ==> (WritesRegister(r.ops, ParticleSensorSelectReg) <==> sensor != Off)
    ensures forall i :: 0 <= i < |r.ops| && r.ops[i].WriteBlock? && r.ops[i].reg == ParticleSensorSelectReg ==>
      i == 0 && r.ops[i].data == [SensorCode(sensor)]
    ensures !simulation ==> WriteBlock(CycleTimePeriodReg, [PeriodCode(period)]) in r.ops
    ensures !simulation ==>
      |r.ops| > 0 && r.ops[|r.ops| - 1] == WriteByte(CycleModeCmd) && WriteByte(CycleModeCmd) !in r.ops[..|r.ops| - 1]
    ensures ReadCount(r.ops) == 0 && AwaitReady !in r.ops
    ensures !simulation ==> Replay(PowerOn, r.ops) == DeviceState(sensor, Some(period), true)
  {
    if simulation then
      Initialised([], None)
    else if sensor == Off then
      var ops := [WriteBlock(CycleTimePeriodReg, [PeriodCode(period)]), WriteByte(CycleModeCmd)];
      assert ops[1..] == [WriteByte(CycleModeCmd)] && ops[1..][1..] == [];
      assert ReadCount(ops[1..]) == 0;
      var configured := DeviceState(Off, Some(period), false);
      assert Apply(PowerOn, ops[0]) == configured;
      assert Replay(configured, ops[1..]) == configured.(cycling := true);
      Initialised(ops, Some(I2CBus))
    else
      var ops := [
        WriteBlock(ParticleSensorSelectReg, [SensorCode(sensor)]),
        WriteBlock(CycleTimePeriodReg, [PeriodCode(period)]),
        WriteByte(CycleModeCmd)];
      assert ops[1..][1..] == [WriteByte(CycleModeCmd)] && ops[1..][1..][1..] == [];
      assert ops[0].WriteBlock? && ops[0].reg == ParticleSensorSelectReg;
      assert ReadCount(ops[1..][1..]) == 0 && ReadCount(ops[1..]) == 0;
      var configured := DeviceState(sensor, Some(period), false);
      assert Apply(PowerOn, ops[0]) == DeviceState(sensor, None, false);
      assert Replay(configured, ops[1..][1..]) == configured.(cycling := true);
      assert Replay(DeviceState(sensor, None, false), ops[1..]) == configured.(cycling := true);
      Initialised(ops, Some(I2CBus))
  }

  /** The operations of one read cycle. */
  function ReadOps(simulation: bool): (ops: seq<HwOp>)
    ensures simulation ==> ops == []
    ensures !simulation ==> |ops| > 0 && ops[0] == AwaitReady && AwaitReady !in ops[1..]
    ensures !simulation ==> ReadCount(ops) == 5 && RegionsRead(ops) == ReadOrder
    ensures forall i :: 0 <= i < |ops| ==> ops[i] == AwaitReady || ops[i].ReadBlock?
    ensures forall i :: 0 <= i < |ops| && ops[i].ReadBlock? ==>
      0 < i && RegionOf(ops[i].reg).Some? && ops[i].count == DataBytes(RegionOf(ops[i].reg).value)
  {
    if simulation then []
    else
      [ AwaitReady,
        ReadBlock(AirDataRead, AirDataBytes),
        ReadBlock(AirQualityDataRead, AirQualityDataBytes),
        ReadBlock(LightDataRead, LightDataBytes),
        ReadBlock(SoundDataRead, SoundDataBytes),
        ReadBlock(ParticleDataRead, ParticleDataBytes) ]
  }

  /** The operations one read issued and the payload it built. */
  datatype SensorRead = SensorRead(ops: seq<HwOp>, payload: PayloadMap)

  /**
   * One read: in hardware mode the read cycle's operations and the payload of
   * the decoded sample; in simulation no operation and the canned payload.
   */
  function ReadSensor(format: Format, simulation: bool, sample: Readings): (r: SensorRead)
    ensures r.ops == ReadOps(simulation)
    ensures simulation ==> r.ops == [] && r.payload == SimulatedPayload()
    ensures !simulation ==> |r.ops| > 0 && r.ops[0] == AwaitReady && ReadCount(r.ops) == 5 && RegionsRead(r.ops) == ReadOrder
    ensures !simulation ==> r.payload == HardwarePayload(format, sample)
  {
    SensorRead(ReadOps(simulation), if simulation then SimulatedPayload() else HardwarePayload(format, sample))
  }
}
