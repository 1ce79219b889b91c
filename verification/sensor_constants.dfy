/**
 * The MS430 register map, command and codes that the clients use. Their
 * numeric values live in a constants module that is not part of this model,
 * so each constant is a constructor of its own: distinct constructors stand
 * for distinct constants, which is all the clients rely on.
 */
module SensorConstants {
  import opened Wrappers

  /** The particle sensors the board can be told about. */
  datatype ParticleSensor = Off | PPD42 | SDS011

  /** The measurement cycle periods the two clients select. */
  datatype CyclePeriod = CyclePeriod3s | CyclePeriod100s

  /** Registers: two configuration registers and the five data-read registers. */
  datatype Register =
    | ParticleSensorSelectReg
    | CycleTimePeriodReg
    | AirDataRead
    | AirQualityDataRead
    | LightDataRead
    | SoundDataRead
    | ParticleDataRead

  /** The byte length of each data block. */
  datatype ByteCount =
    | AirDataBytes
    | AirQualityDataBytes
    | LightDataBytes
    | SoundDataBytes
    | ParticleDataBytes

  /** The single-byte commands the clients send. */
  datatype Command = CycleModeCmd

  /** The five data regions the board exposes after every measurement. */
  datatype Region = Air | AirQuality | Light | Sound | Particle

  /** The register a region is read from. */
  function ReadRegister(region: Region): Register {
    match region
    case Air => AirDataRead
    case AirQuality => AirQualityDataRead
    case Light => LightDataRead
    case Sound => SoundDataRead
    case Particle => ParticleDataRead
  }

  /** The byte length of a region's block. */
  function DataBytes(region: Region): ByteCount {
    match region
    case Air => AirDataBytes
    case AirQuality => AirQualityDataBytes
    case Light => LightDataBytes
    case Sound => SoundDataBytes
    case Particle => ParticleDataBytes
  }

  /** The region a register reads, or None for a configuration register. */
  function RegionOf(reg: Register): (r: Option<Region>)
    ensures r.Some? ==> ReadRegister(r.value) == reg
    ensures forall region :: ReadRegister(region) == reg ==> r == Some(region)
  {
    match reg
    case AirDataRead => Some(Air)
    case AirQualityDataRead => Some(AirQuality)
    case LightDataRead => Some(Light)
    case SoundDataRead => Some(Sound)
    case ParticleDataRead => Some(Particle)
    case _ => None
  }

  /** The order in which each sample's regions are read. */
  const ReadOrder: seq<Region> := [Air, AirQuality, Light, Sound, Particle]
}
