/** Shared vocabulary: bytes, powers of two, wire formats, frames and options. */
module MspTypes {

  type byte = b: int | 0 <= b < 256

  function Pow2(n: nat): (p: nat)
    ensures p > 0
  {
    if n == 0 then 1 else 2 * Pow2(n - 1)
  }

  /** How a frame was physically framed on the wire. */
  datatype WireFormat = V1 | V2 | V2OverV1

  /** The command space of a frame: 8-bit commands (v1) or 16-bit function codes (v2). */
  datatype ProtocolVersion = ProtocolV1 | ProtocolV2

  datatype Direction = Request | Response | Error

  /** One decoded frame. For V2OverV1 the command is the inner one, never 255. */
  datatype MspFrame = MspFrame(
    wireFormat: WireFormat,
    direction: Direction,
    command: nat,
    flags: byte,
    payload: seq<byte>)
  {
    function Protocol(): ProtocolVersion {
      ProtocolOf(wireFormat)
    }
  }

  function ProtocolOf(wireFormat: WireFormat): ProtocolVersion {
    if wireFormat.V1? then ProtocolV1 else ProtocolV2
  }

  datatype Option<+T> = None | Some(value: T)
  {
    function GetOr(default: T): T {
      if Some? then value else default
    }
  }

  datatype Result<+T, +E> = Ok(value: T) | Err(error: E)

  const MSP_V2_FRAME_ID: byte := 255
  const MSP_MAX_PAYLOAD_BYTES_DEFAULT: nat := 8192
  const MSP_PROTOCOL_SIZE_FIELD_CEILING: nat := 0xffff

  const DOLLAR: byte := 0x24
  const MAGIC_V1: byte := 0x4d
  const MAGIC_V2_NATIVE: byte := 0x58
  const DIRECTION_REQUEST: byte := 0x3c
  const DIRECTION_RESPONSE: byte := 0x3e
  const DIRECTION_ERROR: byte := 0x21
  const JUMBO_SIZE_MARKER: byte := 0xff
  const V2_HEADER_SIZE: nat := 5
  const V2_OVER_V1_OVERHEAD: nat := 6
}
