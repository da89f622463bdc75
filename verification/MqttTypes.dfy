/** The neutral MQTT values the broker moves around: a publish, its identifier and its deadline. */
module MqttTypes {
  const U16_MAX: int := 0xFFFF
  const U32_MAX: int := 0xFFFF_FFFF
  const U64_MAX: int := 0xFFFF_FFFF_FFFF_FFFF

  type u8 = x: int | 0 <= x <= 0xFF
  type u16 = x: int | 0 <= x <= U16_MAX
  type u32 = x: int | 0 <= x <= U32_MAX
  type u64 = x: int | 0 <= x <= U64_MAX

  type Bytes = seq<u8>

  datatype Option<+T> = None | Some(value: T)

  datatype ProtocolVersion = V3_1_1 | V5_0

  /** A publish in neutral form. `messageExpiryInterval` is the MQTT 5 property (seconds, relative),
      `expiresAt` the absolute deadline the broker stamps on arrival. */
  datatype Publish = Publish(
    topicName: string,
    payload: Bytes,
    qos: u8,
    retain: bool,
    dup: bool,
    packetIdentifier: Option<u16>,
    messageExpiryInterval: Option<u32>,
    expiresAt: Option<u64>)

  function Min(a: int, b: int): int {
    if a <= b then a else b
  }

  function Max(a: int, b: int): int {
    if a <= b then b else a
  }

  /** Rust's `u64::saturating_add`. */
  function SaturatingAdd(a: u64, b: u64): u64 {
    Min(a + b, U64_MAX)
  }

  /** Rust's `u64::saturating_sub`. */
  function SaturatingSub(a: u64, b: u64): u64 {
    Max(a - b, 0)
  }
}
