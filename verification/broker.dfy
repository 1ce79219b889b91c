/** The broker-side vocabulary the clients see: delivery levels and CONNACK codes. */
module Broker {

  /** MQTT quality-of-service levels 0, 1 and 2. */
  datatype QoS = AtMostOnce | AtLeastOnce | ExactlyOnce

  /** The CONNACK return codes of MQTT 3.1.1, in code order 0 to 5. */
  datatype ConnectReturnCode =
    | Accepted
    | UnacceptableProtocolVersion
    | IdentifierRejected
    | ServerUnavailable
    | BadUsernameOrPassword
    | NotAuthorized
}
