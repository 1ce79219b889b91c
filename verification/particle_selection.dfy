/**
 * Validation of the --particle option (validate_particle_sensor, identical in
 * both clients): the two known names select their sensor, everything else
 * selects no sensor, and nothing is rejected.
 */
module ParticleSelection {
  import opened SensorConstants

  /** The option's value: the PARTICLE_SENSOR_OFF default, or a string from the command line. */
  datatype SensorArg = OffSentinel | Name(name: string)

  /** Which of the three branches was taken, as the source's log line reports it. */
  datatype Note = NoSensor | UsingSensor(name: string) | InvalidSensor(name: string)

  datatype Validated = Validated(sensor: ParticleSensor, note: Note)

  /** The names the clients accept, and the sensor each selects. */
  const ValidSensors: map<string, ParticleSensor> := map["PPD42" := PPD42, "SDS011" := SDS011]

  /** The sensor an option value selects, with the branch taken. Total: never fails. */
  function Validate(arg: SensorArg): (r: Validated)
    ensures r.sensor == PPD42 <==> arg == Name("PPD42")
    ensures r.sensor == SDS011 <==> arg == Name("SDS011")
    ensures r.sensor == Off <==> arg != Name("PPD42") && arg != Name("SDS011")
    ensures r.note.InvalidSensor? <==> arg.Name? && arg.name != "PPD42" && arg.name != "SDS011"
    ensures r.note.NoSensor? <==> arg == OffSentinel
    ensures r.note.UsingSensor? <==> arg.Name? && arg.name in ValidSensors
    ensures r.note.UsingSensor? || r.note.InvalidSensor? ==> arg.Name? && r.note.name == arg.name
  {
    match arg
    case OffSentinel => Validated(Off, NoSensor)
    case Name(s) =>
      if s in ValidSensors then Validated(ValidSensors[s], UsingSensor(s))
      else Validated(Off, InvalidSensor(s))
  }

  /** An option value that selects sensor without being reported as invalid. */
  function ArgFor(sensor: ParticleSensor): (arg: SensorArg)
    ensures Validate(arg).sensor == sensor
    ensures !Validate(arg).note.InvalidSensor?
  {
    match sensor
    case Off => OffSentinel
    case PPD42 => Name("PPD42")
    case SDS011 => Name("SDS011")
  }
}
