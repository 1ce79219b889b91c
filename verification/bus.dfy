/**
 * The sensor's GPIO/I2C interface as a log of operations. The clients only
 * ever append to this log; the functions here read it back.
 */
module Bus {
  import opened Wrappers
  import opened SensorConstants

  /** A byte written to a configuration register. */
  datatype DataByte = SensorCode(sensor: ParticleSensor) | PeriodCode(period: CyclePeriod)

  /** One operation on the sensor, in the order issued. */
  datatype HwOp =
    | AwaitReady                                      // a falling edge on READY has been detected
    | WriteBlock(reg: Register, data: seq<DataByte>)  // block write to a register
    | WriteByte(cmd: Command)                         // single-byte command
    | ReadBlock(reg: Register, count: ByteCount)      // block read of count bytes from a register

  /** Some block write in ops targets reg. */
  predicate WritesRegister(ops: seq<HwOp>, reg: Register) {
    exists i :: 0 <= i < |ops| && ops[i].WriteBlock? && ops[i].reg == reg
  }

  /** The number of block reads in ops. */
  function ReadCount(ops: seq<HwOp>): nat {
    if |ops| == 0 then 0
    else (if ops[0].ReadBlock? then 1 else 0) + ReadCount(ops[1..])
  }

  /** The regions whose data registers ops reads, in order. */
  function RegionsRead(ops: seq<HwOp>): seq<Region> {
    if |ops| == 0 then []
    else if ops[0].ReadBlock? && RegionOf(ops[0].reg).Some? then [RegionOf(ops[0].reg).value] + RegionsRead(ops[1..])
    else RegionsRead(ops[1..])
  }

  /**
   * The configuration a sequence of writes leaves the board in: the particle
   * sensor selected, the cycle period set, and whether cycle mode was entered.
   */
  datatype DeviceState = DeviceState(particle: ParticleSensor, period: Option<CyclePeriod>, cycling: bool)

  /** The board after power-on: no particle sensor, no period written, not cycling. */
  const PowerOn: DeviceState := DeviceState(Off, None, false)

  /** The effect of one operation on the board's configuration. */
  function Apply(s: DeviceState, op: HwOp): DeviceState {
    match op
    case WriteBlock(reg, data) =>
      if |data| != 1 then s
      else if reg == ParticleSensorSelectReg && data[0].SensorCode? then s.(particle := data[0].sensor)
      else if reg == CycleTimePeriodReg && data[0].PeriodCode? then s.(period := Some(data[0].period))
      else s
    case WriteByte(CycleModeCmd) => s.(cycling := true)
    case _ => s
  }

  /** The configuration after applying ops, in order, to s. */
  function Replay(s: DeviceState, ops: seq<HwOp>): DeviceState
    decreases |ops|
  {
    if |ops| == 0 then s else Replay(Apply(s, ops[0]), ops[1..])
  }
}
