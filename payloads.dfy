/**
 * The event that flows from the subscription callback through the export manager
 * to every exporter (`handlers.Payload`), and the dynamic value it carries.
 */
module Payloads {

  /** One second of Go's `time.Duration`; timestamps and durations are in nanoseconds. */
  const Second: nat := 1_000_000_000

  type int8 = x: int | -0x80 <= x < 0x80
  type int16 = x: int | -0x8000 <= x < 0x8000
  type int32 = x: int | -0x8000_0000 <= x < 0x8000_0000
  type int64 = x: int | -0x8000_0000_0000_0000 <= x < 0x8000_0000_0000_0000
  type uint8 = x: int | 0 <= x < 0x100
  type uint16 = x: int | 0 <= x < 0x1_0000
  type uint32 = x: int | 0 <= x < 0x1_0000_0000
  type uint64 = x: int | 0 <= x < 0x1_0000_0000_0000_0000

  /**
   * The Go value returned by `Variant.Value()`, one variant per dynamic type the
   * classification distinguishes. Floating-point values carry no number: only
   * their type is ever inspected. `GoOther` stands for every remaining Go type
   * (time.Time, []byte, nil, ...).
   */
  datatype GoValue =
    | GoInt(i: int64)
    | GoInt8(i8: int8)
    | GoInt16(i16: int16)
    | GoInt32(i32: int32)
    | GoInt64(i64: int64)
    | GoUint8(u8: uint8)
    | GoUint16(u16: uint16)
    | GoUint32(u32: uint32)
    | GoUint64(u64: uint64)
    | GoFloat32
    | GoFloat64
    | GoBool(b: bool)
    | GoString(s: string)
    | GoOther

  /**
   * One exported sample. `ts` is the source timestamp in nanoseconds; `server`
   * is empty until the export manager stamps it.
   */
  datatype Payload = Payload(
    value: GoValue,
    ts: nat,
    name: string,
    id: string,
    dataType: string,
    server: string)
}
