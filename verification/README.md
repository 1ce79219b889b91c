# Metriful sensor publishers: a Dafny model of the decision logic

The repository has two Raspberry Pi clients that read a Metriful MS430
environment sensor over I2C and publish its readings as JSON to an MQTT broker.
`Raspberry_Pi/awsiot_client.py` publishes to AWS IoT through a rule-routed topic.
`Raspberry_Pi/mqtt_client.py` publishes to a plain broker. Both share a small
layer of decision logic, and that layer is what this project models:

- validation of the `--particle` option into one of {Off, PPD42, SDS011};
- sensor initialisation, as the log of bus operations it issues;
- one read cycle, as a log of operations, and the payload it builds;
- the publish topic of each client;
- the endless read-and-publish loop, as an event log over a finite list of samples;
- in the AWS client, the resumed-connection handler and the resubscribe check.

Layout, one module per file:

| file | module | contents |
|---|---|---|
| wrappers.dfy | Wrappers | `Option` |
| sensor_constants.dfy | SensorConstants | particle sensors, cycle periods, registers, byte counts, the cycle-mode command, regions and their read order |
| bus.dfy | Bus | the operation log (`HwOp`); reading it back as counts, regions read, and the device configuration it leaves (`Replay`) |
| broker.dfy | Broker | QoS levels and CONNACK return codes |
| particle_selection.dfy | ParticleSelection | `validate_particle_sensor` |
| payload.dfy | Payload | payload fields, hardware profiles, the simulated payload, JSON names |
| sensor_session.dfy | SensorSession | `initialise_sensor` and `read_sensor`, shared by both clients |
| topics.dfy | Topics | topic names and reading the sensor name back |
| publish_loop.dfy | PublishLoop | the main loop as an event log, and its ordering lemmas |
| awsiot_client.dfy | AwsIotClient | the AWS client's settings, per-file contracts, resume and resubscribe handling |
| mqtt_client.dfy | MqttClient | the plain client's settings and per-file contracts |

Abstractions:

- The values of the sensor constants live in a module that is not part of this model. Each constant is therefore its own constructor; distinct constructors stand for distinct constants.
- `PARTICLE_SENSOR_OFF` is assumed to be a non-string code that no command-line string equals; its value lives in `sensor_constants`, which is not part of this model. Only the no-sensor/invalid-name branch taken for the default depends on this: the default selects no sensor either way.
- The register decoders are not modelled. A read takes the decoded `Readings` as a parameter. `AqiLabel(x)` stands for the category that `interpret_AQI_value` gives `x`.
- Float formatting is not modelled. `Fixed(x, n)` stands for `x` rendered with `n` decimals. `Number(x)` is a reading placed in the payload without formatting.
- Waiting for READY is one `AwaitReady` entry in the log, placed before the reads.
- `Replay` is an independent reading of an initialisation log. It applies each write to a board that powers up with no particle sensor, no period written and cycle mode off.
- Simulation mode, a module global in the source, is a parameter.

Facts of the two clients that the model records:

- The rule-routed AWS client sends the ten reading fields, each to two decimals.
- The `metriful/` client sends eleven fields: pressure as decoded, the other readings to one or two decimals, and `aqi_string`, the category of the AQI.
- The plain client calls `publish` without a QoS argument, so its messages go at QoS 0 (`AtMostOnce`).
- Initialisation does not catch bus errors. A failed write raises out of the client and is not a modelled result.
- The resubscribe check calls `sys.exit` from a callback on the connection's event-loop thread. There it raises `SystemExit` in that thread only, so a rejected topic is reported and the publishing loop carries on. The model records the report as `Rejected(topic)`.

## Model

| member | source | states |
|---|---|---|
| ParticleSelection.Validate | Raspberry_Pi/awsiot_client.py:88-99 | total: "PPD42" selects PPD42 and "SDS011" selects SDS011, each iff the option is that name; every other input gives Off; the invalid-name branch is taken exactly for names other than the two; the no-sensor branch exactly for the default; the using-sensor branch exactly for the two valid names; both named branches log the option's own string |
| ParticleSelection.ArgFor | Raspberry_Pi/awsiot_client.py:19 | every sensor kind has an option value that validation maps back to it without reporting it invalid |
| AwsIotClient.ValidateParticleSensor | Raspberry_Pi/awsiot_client.py:88-99 | PPD42 / SDS011 iff the option is that name; Off iff the option is the default or a name not in the valid-sensor table |
| MqttClient.ValidateParticleSensor | Raspberry_Pi/mqtt_client.py:47-58 | the same validation in the plain client: the two names select their sensor, everything else selects Off |
| SensorSession.Initialise | Raspberry_Pi/awsiot_client.py:70-85 | simulation: no operation and no bus handle; hardware: exactly two operations without a particle sensor and three with one; the particle-select write occurs iff the sensor is not Off, carries `[sensor]` and only ever at position 0; the cycle-period write always occurs; the cycle-mode command is last and occurs once; no reads; replaying the log configures the board with that sensor and period and in cycle mode |
| AwsIotClient.InitialiseSensor | Raspberry_Pi/awsiot_client.py:70-85 | hardware: exactly 2 operations without a particle sensor, 3 with one; select write iff sensor not Off, only first and with payload `[sensor]`; the period write with the 3 s period; cycle-mode command last and only once; board configured to (sensor, 3 s, cycling); simulation: nothing issued, None returned |
| MqttClient.InitialiseSensor | Raspberry_Pi/mqtt_client.py:29-44 | as for the AWS client but with the 100 s period |
| SensorSession.ReadOps | Raspberry_Pi/awsiot_client.py:117-150 | hardware: the ready wait first and only once, then exactly five block reads whose regions are air, air quality, light, sound, particle in that order, each with its region's byte count; no writes; simulation: no operation |
| SensorSession.ReadSensor | Raspberry_Pi/mqtt_client.py:76-136 | the operations are exactly the read cycle's; simulation: no operation and the canned payload; hardware: the ready wait first, five reads in region order, and the hardware payload of the sample |
| Payload.HardwarePayload | Raspberry_Pi/mqtt_client.py:111-121 | AWS profile: exactly the ten reading fields, each the field's own reading at two decimals; MQTT profile: those ten plus `aqi_string`; pressure raw, the category of the AQI, the rest their own reading at one decimal (temperature, humidity, aqi, spl, co2e) or two |
| Payload.SimulatedPayload | Raspberry_Pi/awsiot_client.py:164-177 | the eleven fields including `aqi_string`, all string literals, e.g. temperature "20", pressure "1000", aqi_string "dummy" |
| Payload.SimulatedJson | Raspberry_Pi/mqtt_client.py:123-136 | the simulated payload serialises to exactly the eleven canned name/value pairs, every one of them given |
| Payload.KeyNamesDistinct | Raspberry_Pi/awsiot_client.py:152-162 | distinct payload fields have distinct JSON names |
| Payload.Json | Raspberry_Pi/awsiot_client.py:228 | the serialisation model of `json.dumps(payload)`, the body of every publish: the object has a field's name iff the payload has that field, with the same value, and no other name |
| AwsIotClient.ReadSensor | Raspberry_Pi/awsiot_client.py:101-180 | exactly the shared read cycle's operations; hardware: ready wait, then five reads in region order with matching byte counts; payload of exactly 10 fields without `aqi_string`, each its reading at two decimals; simulation: no operation, the 11 canned fields |
| MqttClient.ReadSensor | Raspberry_Pi/mqtt_client.py:60-139 | exactly the shared read cycle's operations; hardware: ready wait, five reads in region order; exactly 11 fields including `aqi_string`; pressure is the raw reading; `aqi_string` is the AQI's category; the rest carry their own reading, at one decimal for temperature, humidity, aqi, spl and co2e and two for the others; simulation: no operation, the 11 canned fields |
| Topics.AwsTopic | Raspberry_Pi/awsiot_client.py:221 | the topic is `$aws/rules/log_metriful/` followed by the sensor name |
| Topics.MqttTopic | Raspberry_Pi/mqtt_client.py:165 | the topic is `metriful/` followed by the sensor name |
| Topics.TopicsRoundTrip | Raspberry_Pi/awsiot_client.py:20-21 | the sensor name is read back from either client's topic |
| Topics.TopicsDistinct | Raspberry_Pi/mqtt_client.py:165 | topics are equal iff sensor names are; no AWS topic equals an MQTT topic |
| AwsIotClient.TopicName | Raspberry_Pi/awsiot_client.py:221 | `$aws/rules/log_metriful/<name>`, from which the name is read back |
| MqttClient.TopicName | Raspberry_Pi/mqtt_client.py:165 | `metriful/<name>`, from which the name is read back |
| PublishLoop.CyclesPublishInOrder | Raspberry_Pi/mqtt_client.py:162-165 | the loop iterations publish exactly the samples' payloads, one each, in acquisition order |
| PublishLoop.RunPublishesInOrder | Raspberry_Pi/awsiot_client.py:217-229 | a whole run (validate, initialise, loop) publishes exactly one payload per sample, in order |
| PublishLoop.RunPublishesOnTopic | Raspberry_Pi/awsiot_client.py:221-229 | every publish goes to the client's one topic with its QoS |
| PublishLoop.RunSimulatedOnlyPublish | Raspberry_Pi/awsiot_client.py:217-224 | in simulation a run issues no sensor operation at all, only publishes |
| PublishLoop.CyclesReadBeforePublish | Raspberry_Pi/mqtt_client.py:162-165 | in hardware mode every publish follows directly after a complete read cycle: the ready wait and the five reads |
| PublishLoop.RunReadBeforePublish | Raspberry_Pi/awsiot_client.py:220-229 | the same for a whole run, including the initialisation writes before it |
| PublishLoop.CyclesHardwareBlocks | Raspberry_Pi/mqtt_client.py:162-165 | in hardware mode the iterations are back-to-back blocks of seven events: the ready wait, the five reads, and the publish of that sample's payload |
| PublishLoop.RunHardwareBlocks | Raspberry_Pi/awsiot_client.py:217-230 | a hardware run has exactly the initialisation log's length plus seven events per sample, and block k is sample k's read cycle and publish |
| PublishLoop.RunOnlyReadsAfterInitialise | Raspberry_Pi/awsiot_client.py:220-230 | after initialisation a hardware run issues no write or command: every sensor operation is the ready wait or a block read |
| PublishLoop.RunStartsWithInitialise | Raspberry_Pi/awsiot_client.py:217-220 | a run begins with the initialisation log for the sensor the particle option validates to |
| AwsIotClient.SessionPublishes | Raspberry_Pi/awsiot_client.py:216-230 | the AWS run publishes one payload per sample, in order, every one to the sensor's topic at least once |
| AwsIotClient.SessionSensorOrder | Raspberry_Pi/awsiot_client.py:216-230 | the AWS run starts with the initialisation log for the validated particle option; in simulation it has no sensor operation; in hardware mode a full read cycle comes before each publish, and after initialisation every sensor operation is the ready wait or a read |
| AwsIotClient.SessionHardwareLoop | Raspberry_Pi/awsiot_client.py:216-230 | a hardware AWS run is the initialisation log plus exactly seven events per sample, and block k is sample k's read cycle followed by its publish on the client's topic and QoS |
| MqttClient.SessionPublishes | Raspberry_Pi/mqtt_client.py:156-165 | the plain run publishes one payload per sample, in order, every one to `metriful/<name>` at QoS 0 |
| MqttClient.SessionSensorOrder | Raspberry_Pi/mqtt_client.py:156-165 | the plain run starts with the initialisation log for the validated particle option; in simulation it has no sensor operation; in hardware mode a full read cycle comes before each publish, and after initialisation every sensor operation is the ready wait or a read |
| MqttClient.SessionHardwareLoop | Raspberry_Pi/mqtt_client.py:156-165 | a hardware plain run is the initialisation log plus exactly seven events per sample, and block k is sample k's read cycle followed by its publish on the client's topic and QoS |
| AwsIotClient.OnConnectionResumed | Raspberry_Pi/awsiot_client.py:33-42 | a resubscribe is requested iff the return code is Accepted and the session was not present |
| AwsIotClient.OnResubscribeComplete | Raspberry_Pi/awsiot_client.py:45-51 | reports a rejection iff some topic was granted no QoS; the reported topic is the first such topic |
| AwsIotClient.CompletionDetectsLoss | Raspberry_Pi/awsiot_client.py:49-51 | with one answer per topic, the check reports a rejection iff some answered topic is not granted |
| AwsIotClient.ResumeKeepsSubscriptions | Raspberry_Pi/awsiot_client.py:33-51 | after an accepted resume, the handler and the check report no rejection iff the broker holds every previously held subscription again |

## Left out

- Broker plumbing is not modelled: connecting, `publish` delivery, the event-loop group, `clean_session`, the keep-alive and client id. The broker is foreign library code.
- The register decoders (`extract*Data`, `interpret_AQI_value`) are not part of this model. `Readings` and `AqiLabel` stand in for their results.
- Concrete values of registers, byte lengths and sensor codes are not modelled. They live in `sensor_constants`, which is not part of this model; distinct constructors stand for them.
- `"{:.2f}"` / `"{:.1f}"` floating-point formatting is not modelled. Only the precision is recorded.
- The READY polling loop (`sleep(0.05)`), the simulated `time.sleep(5)` and the AWS loop's `time.sleep(1)` are timing only. READY is one `AwaitReady` entry.
- `SensorHardwareSetup` (GPIO and I2C set-up) is not modelled beyond the bus handle it yields.
- Bus write or read errors are exceptions that the source does not handle. The bus is modelled as infallible.
- Command-line parsing, logging, `print`, `on_connect`, `on_message` and `on_connection_interrupted` are output only.
- `on_message_received` is left out. It uses globals the file never defines (`received_count`, `args.count`, `received_all_event`), and nothing registers it.
- `sys.exit` in the resubscribe check is modelled as the `Rejected(topic)` report. It runs on the event-loop thread, where it raises `SystemExit` and does not end the process; that thread-level effect is not modelled.
- A `Publish` event carries the payload's fields rather than its JSON text. The body sent is `Json(payload)`; keeping it out of the event keeps the loop proofs free of the serialiser's quantifiers.
- The resubscribe future's own failure (an exception from `result()`) is not modelled.
- AwsIotClient.SessionPublishes: describes the first `|samples|` iterations of the endless loop, not the loop's non-termination.
- MqttClient.SessionPublishes: describes the first `|samples|` iterations of the endless loop, not the loop's non-termination.
- AwsIotClient.SessionSensorOrder: describes the first `|samples|` iterations of the endless loop, not the loop's non-termination.
- MqttClient.SessionSensorOrder: describes the first `|samples|` iterations of the endless loop, not the loop's non-termination.
- AwsIotClient.SessionHardwareLoop: describes the first `|samples|` iterations of the endless loop, not the loop's non-termination.
- MqttClient.SessionHardwareLoop: describes the first `|samples|` iterations of the endless loop, not the loop's non-termination.
- AwsIotClient.ResumeKeepsSubscriptions: assumes the broker answers once for each held topic; what the broker holds after a resume with a non-Accepted code is not modelled.
