/**
 * Publish topic names. The AWS client routes through an IoT rule, so its
 * topic is the rule root, the rule name and the sensor name joined by '/';
 * the plain MQTT client publishes under "metriful/".
 */
module Topics {
  import opened Wrappers

  const AwsTopicRoot: string := "$aws/rules"
  const RuleName: string := "log_metriful"
  const MqttTopicRoot: string := "metriful"

  /** The part of an AWS topic before the sensor name. */
  const AwsPrefix: string := AwsTopicRoot + "/" + RuleName + "/"

  /** The part of an MQTT topic before the sensor name. */
  const MqttPrefix: string := MqttTopicRoot + "/"

  /** The AWS client's publish topic for a sensor. */
  function AwsTopic(sensorName: string): (t: string)
    ensures t == "$aws/rules/log_metriful/" + sensorName
  {
    AwsPrefix + sensorName
  }

  /** The MQTT client's publish topic for a sensor. */
  function MqttTopic(sensorName: string): (t: string)
    ensures t == "metriful/" + sensorName
  {
    MqttPrefix + sensorName
  }

  /** The sensor name of a topic under prefix, or None when the topic is not under it. */
  function SensorNameOf(prefix: string, topic: string): (r: Option<string>)
    ensures r.Some? <==> prefix <= topic
    ensures r.Some? ==> topic == prefix + r.value
  {
    if prefix <= topic then Some(topic[|prefix|..]) else None
  }

  /** The sensor name can be read back from either client's topic. */
  lemma TopicsRoundTrip(sensorName: string)
    ensures SensorNameOf(AwsPrefix, AwsTopic(sensorName)) == Some(sensorName)
    ensures SensorNameOf(MqttPrefix, MqttTopic(sensorName)) == Some(sensorName)
  {
  }

  /** Distinct sensors publish to distinct topics, and no AWS topic is an MQTT topic. */
  lemma TopicsDistinct(a: string, b: string)
    ensures AwsTopic(a) == AwsTopic(b) <==> a == b
    ensures MqttTopic(a) == MqttTopic(b) <==> a == b
    ensures AwsTopic(a) != MqttTopic(b)
  {
    TopicsRoundTrip(a);
    TopicsRoundTrip(b);
    assert AwsTopic(a)[0] == '$' && MqttTopic(b)[0] == 'm';
  }
}
