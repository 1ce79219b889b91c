/**
 * The JSON payload each client builds from one sample. Decoding and float
 * formatting are abstract: a Fixed value stands for a reading rendered with a
 * given number of decimals, an AqiLabel for the air-quality category of an
 * index, so what is stated is the key set, which reading each key reports and
 * at what precision.
 */
module Payload {

  /** The decoded quantities of one sample (the decoders are not part of this model). */
  datatype Readings = Readings(
    temperature: real,
    pressure: real,
    humidity: real,
    aqi: real,
    bvoc: real,
    co2e: real,
    spl: real,
    peakAmp: real,
    illuminance: real,
    particulates: real)

  /** The payload's fields. */
  datatype Key =
    | Temperature | Pressure | Humidity | Aqi | AqiString | Bvoc
    | Spl | PeakAmp | Illuminance | Particulates | Co2e

  /** The field's name in the JSON object. */
  function KeyName(k: Key): string {
    match k
    case Temperature => "temperature"
    case Pressure => "pressure"
    case Humidity => "humidity"
    case Aqi => "aqi"
    case AqiString => "aqi_string"
    case Bvoc => "bvoc"
    case Spl => "spl"
    case PeakAmp => "peak_amp"
    case Illuminance => "illuminance"
    case Particulates => "particulates"
    case Co2e => "co2e"
  }

  /** One field value of the JSON object. */
  datatype Value =
    | Text(text: string)           // a string literal
    | Fixed(x: real, places: nat)  // x rendered with `places` decimals
    | Number(x: real)              // x as decoded, not formatted
    | AqiLabel(aqi: real)          // the air-quality category of an index

  type PayloadMap = map<Key, Value>

  /** The hardware formatting profile of each client. */
  datatype Format = AwsFormat | MqttFormat

  /** The ten fields that carry a reading: all but the category. */
  const NumericKeys: set<Key> :=
    {Temperature, Pressure, Humidity, Aqi, Bvoc, Spl, PeakAmp, Illuminance, Particulates, Co2e}

  /** The fields the MQTT profile renders with one decimal; its other readings but pressure get two. */
  const OneDecimalKeys: set<Key> := {Temperature, Humidity, Aqi, Spl, Co2e}

  /** The reading a field reports; the category field reports the index it classifies. */
  function Quantity(k: Key, s: Readings): real {
    match k
    case Temperature => s.temperature
    case Pressure => s.pressure
    case Humidity => s.humidity
    case Aqi => s.aqi
    case AqiString => s.aqi
    case Bvoc => s.bvoc
    case Spl => s.spl
    case PeakAmp => s.peakAmp
    case Illuminance => s.illuminance
    case Particulates => s.particulates
    case Co2e => s.co2e
  }

  /** The payload built from a hardware sample under a client's profile. */
  function HardwarePayload(format: Format, s: Readings): (p: PayloadMap)
    ensures format == AwsFormat ==> p.Keys == NumericKeys
    ensures format == MqttFormat ==> p.Keys == NumericKeys + {AqiString}
    ensures format == AwsFormat ==> forall k :: k in p ==> p[k] == Fixed(Quantity(k, s), 2)
    ensures format == MqttFormat ==>
      forall k :: k in p ==>
        p[k] == (if k == Pressure then Number(s.pressure)
                 else if k == AqiString then AqiLabel(s.aqi)
                 else Fixed(Quantity(k, s), if k in OneDecimalKeys then 1 else 2))
  {
    match format
    case AwsFormat =>
      map[
        Temperature := Fixed(s.temperature, 2),
        Pressure := Fixed(s.pressure, 2),
        Humidity := Fixed(s.humidity, 2),
        Aqi := Fixed(s.aqi, 2),
        Bvoc := Fixed(s.bvoc, 2),
        Spl := Fixed(s.spl, 2),
        PeakAmp := Fixed(s.peakAmp, 2),
        Illuminance := Fixed(s.illuminance, 2),
        Particulates := Fixed(s.particulates, 2),
        Co2e := Fixed(s.co2e, 2)]
    case MqttFormat =>
      map[
        Temperature := Fixed(s.temperature, 1),
        Pressure := Number(s.pressure),
        Humidity := Fixed(s.humidity, 1),
        Aqi := Fixed(s.aqi, 1),
        AqiString := AqiLabel(s.aqi),
        Bvoc := Fixed(s.bvoc, 2),
        Spl := Fixed(s.spl, 1),
        PeakAmp := Fixed(s.peakAmp, 2),
        Illuminance := Fixed(s.illuminance, 2),
        Particulates := Fixed(s.particulates, 2),
        Co2e := Fixed(s.co2e, 1)]
  }

  /** The canned payload of simulation mode, the same in both clients. */
  function SimulatedPayload(): (p: PayloadMap)
    ensures p.Keys == NumericKeys + {AqiString}
    ensures forall k :: k in p ==> p[k].Text?
    ensures p[Temperature] == Text("20") && p[Pressure] == Text("1000") && p[AqiString] == Text("dummy")
  {
    map[
      Temperature := Text("20"),
      Pressure := Text("1000"),
      Humidity := Text("50"),
      Aqi := Text("180"),
      AqiString := Text("dummy"),
      Bvoc := Text("500"),
      Spl := Text("10"),
      PeakAmp := Text("20"),
      Illuminance := Text("500"),
      Particulates := Text("100"),
      Co2e := Text("50")]
  }

  /** Ten fields carry a reading; with the category there are eleven. */
  lemma KeyCounts()
    ensures |NumericKeys| == 10
    ensures AqiString !in NumericKeys && |NumericKeys + {AqiString}| == 11
  {
  }

  /** Distinct fields have distinct JSON names. */
  lemma KeyNamesDistinct(a: Key, b: Key)
    ensures KeyName(a) == KeyName(b) <==> a == b
  {
  }

  /** The payload as the JSON object it is serialised to: field names to values. */
  function Json(p: PayloadMap): (j: map<string, Value>)
    ensures forall k :: k in p <==> KeyName(k) in j
    ensures forall k :: k in p ==> j[KeyName(k)] == p[k]
    ensures forall n :: n in j ==> exists k :: k in p && KeyName(k) == n
  {
    forall a, b ensures KeyName(a) == KeyName(b) <==> a == b {
      KeyNamesDistinct(a, b);
    }
    map k | k in p :: KeyName(k) := p[k]
  }

  /** The JSON object simulation mode publishes: eleven canned name/value pairs. */
  const CannedJson: map<string, Value> := map[
    "temperature" := Text("20"),
    "pressure" := Text("1000"),
    "humidity" := Text("50"),
    "aqi" := Text("180"),
    "aqi_string" := Text("dummy"),
    "bvoc" := Text("500"),
    "spl" := Text("10"),
    "peak_amp" := Text("20"),
    "illuminance" := Text("500"),
    "particulates" := Text("100"),
    "co2e" := Text("50")]

  /** The simulated payload serialises to exactly the canned object. */
  lemma SimulatedJson()
    ensures Json(SimulatedPayload()) == CannedJson
  {
    var p0: PayloadMap := map[];
    assert Json(p0) == map[];
    var p1 := p0[Temperature := Text("20")];
    JsonUpdate(p0, Temperature, Text("20"));
    var p2 := p1[Pressure := Text("1000")];
    JsonUpdate(p1, Pressure, Text("1000"));
    var p3 := p2[Humidity := Text("50")];
    JsonUpdate(p2, Humidity, Text("50"));
    var p4 := p3[Aqi := Text("180")];
    JsonUpdate(p3, Aqi, Text("180"));
    var p5 := p4[AqiString := Text("dummy")];
    JsonUpdate(p4, AqiString, Text("dummy"));
    var p6 := p5[Bvoc := Text("500")];
    JsonUpdate(p5, Bvoc, Text("500"));
    var p7 := p6[Spl := Text("10")];
    JsonUpdate(p6, Spl, Text("10"));
    var p8 := p7[PeakAmp := Text("20")];
    JsonUpdate(p7, PeakAmp, Text("20"));
    var p9 := p8[Illuminance := Text("500")];
    JsonUpdate(p8, Illuminance, Text("500"));
    var p10 := p9[Particulates := Text("100")];
    JsonUpdate(p9, Particulates, Text("100"));
    var p11 := p10[Co2e := Text("50")];
    JsonUpdate(p10, Co2e, Text("50"));
    assert p11 == SimulatedPayload();
  }

  /** Serialising commutes with setting one field. */
  lemma JsonUpdate(p: PayloadMap, k: Key, v: Value)
    ensures Json(p[k := v]) == Json(p)[KeyName(k) := v]
  {
    var lhs, rhs := Json(p[k := v]), Json(p)[KeyName(k) := v];
    forall n | n in lhs ensures n in rhs && lhs[n] == rhs[n] {
      JsonUpdateAt(p, k, v, n);
    }
    forall n | n in rhs ensures n in lhs {
      JsonUpdateKeeps(p, k, v, n);
    }
    assert lhs.Keys == rhs.Keys;
  }

  /** A name of the updated object is a name of the old one or the set field's, with the matching value. */
  lemma JsonUpdateAt(p: PayloadMap, k: Key, v: Value, n: string)
    requires n in Json(p[k := v])
    ensures n in Json(p)[KeyName(k) := v] && Json(p[k := v])[n] == Json(p)[KeyName(k) := v][n]
  {
    if n != KeyName(k) {
      JsonUpdateOther(p, k, v, n);
    }
  }

  /** A name other than the set field's keeps its old value. */
  lemma JsonUpdateOther(p: PayloadMap, k: Key, v: Value, n: string)
    requires n in Json(p[k := v]) && n != KeyName(k)
    ensures n in Json(p) && Json(p[k := v])[n] == Json(p)[n]
  {
    var k' :| k' in p[k := v] && KeyName(k') == n;
    assert k' in p;
  }

  /** Setting a field loses no name. */
  lemma JsonUpdateKeeps(p: PayloadMap, k: Key, v: Value, n: string)
    requires n in Json(p)[KeyName(k) := v]
    ensures n in Json(p[k := v])
  {
    if n != KeyName(k) {
      var k' :| k' in p && KeyName(k') == n;
      assert k' in p[k := v];
    }
  }

}
