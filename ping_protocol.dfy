/**
 * The decoded sonar messages the modelled code inspects. Decoding itself belongs to the protocol
 * library; a message here carries its header id together with the result of decoding it.
 */
module PingProtocol {

  type Byte = b: int | 0 <= b < 0x100
  type U16 = n: int | 0 <= n < 0x1_0000

  /** Message id of the Ping1D `profile` message. */
  const PROFILE_ID: nat := 1300

  /** Ping360 `auto_device_data`: one sweep step with its echo intensities. */
  datatype AutoDeviceData = AutoDeviceData(
    mode: Byte,
    gainSetting: Byte,
    angle: U16,
    transmitDuration: U16,
    samplePeriod: U16,
    transmitFrequency: U16,
    startAngle: U16,
    stopAngle: U16,
    numSteps: Byte,
    delay: Byte,
    numberOfSamples: U16,
    dataLength: U16,
    data: seq<Byte>)

  /** Ping360 `device_data`: the answer to a single transducer request. */
  datatype DeviceData = DeviceData(
    mode: Byte,
    gainSetting: Byte,
    angle: U16,
    transmitDuration: U16,
    samplePeriod: U16,
    transmitFrequency: U16,
    numberOfSamples: U16,
    dataLength: U16,
    data: seq<Byte>)

  /** Ping1D `profile`; its fields are not inspected by the modelled code. */
  datatype ProfileStruct = ProfileStruct(payload: seq<Byte>)

  /** What decoding a raw message into the protocol's message enum yields. */
  datatype Decoded =
    | Ping360AutoDeviceData(auto: AutoDeviceData)
    | Ping360DeviceData(device: DeviceData)
    | Ping1DProfile(profile: ProfileStruct)
    | OtherMessage
    | Undecodable

  /** A raw protocol message as received from a device's broadcast channel. */
  datatype ProtocolMessage = ProtocolMessage(messageId: nat, decoded: Decoded)

  /** One result of receiving from a broadcast channel: a message, or the error that ends the stream. */
  datatype Received<T> = Delivered(item: T) | ReceiveError

  /** What a receive loop `while let Ok(x) = rx.recv()` gets: the items before the first receive error. */
  function DeliveredPrefix<T>(stream: seq<Received<T>>): (items: seq<T>)
    ensures |items| <= |stream|
    ensures forall k :: 0 <= k < |items| ==> stream[k] == Delivered(items[k])
    ensures |items| < |stream| ==> stream[|items|].ReceiveError?
  {
    if stream == [] || stream[0].ReceiveError? then []
    else [stream[0].item] + DeliveredPrefix(stream[1..])
  }
}
