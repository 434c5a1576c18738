/** Widths, limits and shared entities of the hub firmware. */
module Config {
  type byte = bv8
  type uint8 = x: int | 0 <= x < 0x100
  type uint16 = x: int | 0 <= x < 0x1_0000
  type uint32 = x: int | 0 <= x < 0x1_0000_0000
  type uint64 = x: int | 0 <= x < 0x1_0000_0000_0000_0000

  const IR_CARRIER_HZ: uint32 := 38000
  const IR_MAX_PULSES: nat := 800
  const IR_MIN_PULSE_US: nat := 60
  const IR_FRAME_GAP_US: nat := 12000
  const IR_MESSAGE_GAP_US: nat := 55000
  const IR_ALARM_PERIOD_US: nat := 2000
  const MQTT_MAX_PAYLOAD_LEN: nat := 8192

  const NET_WIFI_FAILS_BEFORE_BLE: nat := 3
  const NET_MQTT_FAILS_BEFORE_BLE: nat := 5
  const NET_CANDIDATE_WIFI_TRIES: nat := 2
  const NET_CANDIDATE_MQTT_TRIES: nat := 3

  datatype Option<+T> = None | Some(value: T)

  /** A decoded pulse train. The firmware's pulse_count is |pulses|. */
  datatype IrMessage = IrMessage(carrierFreq: uint32, frameCount: uint16, truncated: bool, pulses: seq<uint16>)

  /** The pieces of a payload, put together again. */
  function Concat<T>(parts: seq<seq<T>>): seq<T> {
    if parts == [] then [] else parts[0] + Concat(parts[1..])
  }

  function Min(a: int, b: int): int {
    if a <= b then a else b
  }
}
