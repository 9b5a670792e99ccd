/** Values that cross the instrument boundary: the byte and word widths of the
    firmware, the levels of the three chip-select lines that address the
    analog multiplexer, and the events a handler emits on its UART, SPI and
    I2C buses. A handler's bus activity is modelled as the sequence of these
    events, in the order the calls are made. */
module Bus {
  /** `uint8_t` */
  type byte = bv8
  /** `uint16_t` as a packed bit pattern */
  type word = bv16
  /** `uint16_t` as a count: the values `UART1_ReadInt` returns and
      `UART1_WriteInt` sends */
  type uint16 = x: int | 0 <= x < 0x1_0000

  datatype PinLevel = Low | High

  /** Levels of the CS_CH1, CS_CH2 and CS_CH3 output pins. */
  datatype CsPins = CsPins(cs1: PinLevel, cs2: PinLevel, cs3: PinLevel)

  /** The SPI configurations the drivers are opened with. */
  datatype SpiConfig = PgaConfig | DacConfig

  datatype BusEvent =
    | SpiClose
    | SpiOpen(config: SpiConfig)
    | SelectPins(pins: CsPins)
    | SpiExchangeByte(b: byte)
    | SpiExchangeWord(w: word)
    | I2cStart
    | I2cTransmit(b: byte)
    | I2cStop

  /** One call of `UART1_Write` (a byte) or `UART1_WriteInt` (a 16-bit int). */
  datatype UartWrite = WriteByte(b: byte) | WriteInt(v: uint16)

  /** The bytes and words exchanged over SPI, in order. */
  function SpiPayload(t: seq<BusEvent>): seq<BusEvent>
  {
    if t == [] then []
    else if IsSpiExchange(t[0]) then [t[0]] + SpiPayload(t[1..])
    else SpiPayload(t[1..])
  }

  /** The bytes transmitted over I2C, in order. */
  function I2cPayload(t: seq<BusEvent>): seq<byte>
  {
    if t == [] then []
    else if t[0].I2cTransmit? then [t[0].b] + I2cPayload(t[1..])
    else I2cPayload(t[1..])
  }

  lemma {:induction false} SpiPayloadAppend(a: seq<BusEvent>, b: seq<BusEvent>)
    ensures SpiPayload(a + b) == SpiPayload(a) + SpiPayload(b)
  {
    if a == [] {
      assert a + b == b;
    } else {
      assert (a + b)[0] == a[0] && (a + b)[1..] == a[1..] + b;
      SpiPayloadAppend(a[1..], b);
    }
  }

  predicate IsSpiExchange(e: BusEvent)
  {
    e.SpiExchangeByte? || e.SpiExchangeWord?
  }

  /** A stretch of bus activity with no SPI exchange contributes nothing. */
  lemma {:induction false} SpiPayloadNone(t: seq<BusEvent>)
    requires forall i :: 0 <= i < |t| ==> !IsSpiExchange(t[i])
    ensures SpiPayload(t) == []
  {
    if t != [] {
      SpiPayloadNone(t[1..]);
    }
  }
}
