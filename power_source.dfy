/** powersource.c: the programmable power source. `POWER_SOURCE_SetPower`
    packs a 16-bit MCP4822 command word and sends it over SPI;
    `POWER_SOURCE_SetDAC` sends a four-byte write frame to an I2C DAC. */
module PowerSource {
  import opened Bus
  import opened ChipSelect

  const MCP4822_CHANNEL_A: word := 0
  const MCP4822_CHANNEL_B: word := 0x8000
  const MCP4822_GAIN_1: word := 0
  const MCP4822_GAIN_2: word := 0x2000
  const MCP4822_ACTIVE: word := 0x1000
  const MCP4822_SHUTDOWN: word := 0
  /** Multiplexer channel wired to the DAC's chip select (CS3 to A2 of the 74HC4051). */
  const CS_CHANNEL_3: word := 2
  const CS_CHANNEL_4: word := 3

  /** One row of `channel_mapping_table`: the chip-select channel and the
      MCP4822 output of a power-source channel. */
  datatype MappingRow = MappingRow(csPin: word, dacChannel: word)

  /** Rows 0 and 2 drive MCP4822 output A, rows 1 and 3 output B; the
      firmware notes that PVS1/PVS3 share one output and PCS/PVS2 the other. */
  const CHANNEL_MAPPING_TABLE: seq<MappingRow> := [
    MappingRow(CS_CHANNEL_3, MCP4822_CHANNEL_A),
    MappingRow(CS_CHANNEL_3, MCP4822_CHANNEL_B),
    MappingRow(CS_CHANNEL_3, MCP4822_CHANNEL_A),
    MappingRow(CS_CHANNEL_3, MCP4822_CHANNEL_B)
  ]

  /** The table row for the channel byte read from UART; masking with 0x03
      keeps the index inside the four rows for every byte. */
  function MappingRowFor(channel: byte): (row: MappingRow)
    ensures row.csPin == CS_CHANNEL_3
    ensures row.dacChannel == if channel & 1 == 0 then MCP4822_CHANNEL_A else MCP4822_CHANNEL_B
  {
    CHANNEL_MAPPING_TABLE[(channel & 0x03) as int]
  }

  /** `send_data` of `POWER_SOURCE_SetPower`. */
  function CommandWord(channel: byte, power: word): (w: word)
    ensures w & 0x0FFF == power & 0x0FFF
    ensures w & 0x1000 != 0
    ensures w & 0x2000 == 0 && w & 0x4000 == 0
    ensures w & 0x8000 != 0 <==> channel & 1 == 1
  {
    var row := MappingRowFor(channel);
    row.dacChannel | MCP4822_ACTIVE | MCP4822_GAIN_1 | (power & 0x0FFF)
  }

  /** The fields of an MCP4822 write command as the DAC reads them. */
  datatype Mcp4822Command = Mcp4822Command(outputB: bool, gaBit: bool, active: bool, data: word)

  /** The fields of a 16-bit command word: bit 15 selects the output, bit 13
      is the gain bit (`MCP4822_GAIN_2` sets it, `MCP4822_GAIN_1` leaves it
      clear), bit 12 set means the output is active, bits 11..0 are the data. */
  function DecodeMcp4822(w: word): (c: Mcp4822Command)
    ensures c.data < 0x1000
  {
    Mcp4822Command(w & 0x8000 != 0, w & 0x2000 != 0, w & 0x1000 != 0, w & 0x0FFF)
  }

  /** The DAC receives: output B exactly for odd channels, the gain bit
      clear (the `MCP4822_GAIN_1` setting), active, and the low 12 bits of
      the requested value; bit 14 is always 0. */
  lemma CommandWordDecodes(channel: byte, power: word)
    ensures DecodeMcp4822(CommandWord(channel, power))
         == Mcp4822Command(channel & 1 == 1, false, true, power & 0x0FFF)
    ensures CommandWord(channel, power) & 0x4000 == 0
  {
  }

  /** The command word depends only on the channel's low bit and the
      value's low 12 bits. */
  lemma CommandWordMasks(channel: byte, power: word)
    ensures CommandWord(channel, power) == CommandWord(channel & 1, power & 0x0FFF)
  {
  }

  /** The bus activity of `POWER_SOURCE_SetPower` for the channel byte and
      the 16-bit value it reads. */
  function SetPowerTrace(channel: byte, power: word): (t: seq<BusEvent>)
    ensures t == [SpiClose, SpiOpen(DacConfig), SelectPins(SetCS(2)),
                  SpiExchangeWord(CommandWord(channel, power)), SelectPins(UnsetCS())]
  {
    var csPin := (0xFF & MappingRowFor(channel).csPin) as byte;
    [SpiClose, SpiOpen(DacConfig), SelectPins(SetCS(csPin)),
     SpiExchangeWord(CommandWord(channel, power)), SelectPins(UnsetCS())]
  }

  /** Exactly one word, the command word, goes out over SPI, while multiplexer
      output 1 (`SetCS(2)`) is selected, and the chip select is released last. */
  lemma SetPowerExchangesOneWord(channel: byte, power: word)
    ensures SpiPayload(SetPowerTrace(channel, power)) == [SpiExchangeWord(CommandWord(channel, power))]
    ensures MuxAddress(SetPowerTrace(channel, power)[2].pins) == 1
    ensures SetPowerTrace(channel, power)[4] == SelectPins(UnsetCS())
  {
    var t := SetPowerTrace(channel, power);
    var x := SpiExchangeWord(CommandWord(channel, power));
    assert t[..3] + [x] + t[4..] == t;
    SpiPayloadNone(t[..3]);
    SpiPayloadNone(t[4..]);
    assert SpiPayload([x]) == [x] by {
      assert [x][1..] == [];
    }
    SpiPayloadAppend(t[..3], [x]);
    SpiPayloadAppend(t[..3] + [x], t[4..]);
  }

  /** The command byte `64 | (channel << 1)`, computed in `int` and
      transmitted as its low byte. */
  function DacCommandByte(channel: byte): (b: byte)
    ensures b & 0x41 == 0x40
    ensures channel < 0x20 ==> b as int == 0x40 + 2 * channel as int
    ensures (b >> 1) == (channel | 0x20) & 0x7F
  {
    ((0x40 | (channel as bv16 << 1)) & 0xFF) as byte
  }

  /** `POWER_SOURCE_SetDAC` as written: the value read from UART is stored
      in a `uint8_t`, so only its low byte survives and the high byte sent
      is `0xFF & (power >> 8)` of an 8-bit value. */
  function SetDacTraceAsWritten(address: byte, channel: byte, powerInt: word): (t: seq<BusEvent>)
    ensures |t| == 6 && t[0] == I2cStart && t[5] == I2cStop
    ensures I2cPayload(t) == [address, DacCommandByte(channel), 0, (powerInt & 0xFF) as byte]
  {
    var power: byte := (powerInt & 0xFF) as byte;
    var t := [I2cStart, I2cTransmit(address), I2cTransmit(DacCommandByte(channel)),
              I2cTransmit((0xFF & (power as bv16 >> 8)) as byte),
              I2cTransmit(0xFF & power), I2cStop];
    I2cFrame(t);
    t
  }

  /** Two values that differ only above bit 7 produce the same frame: a
      request of 0x100 is sent exactly like a request of 0. */
  lemma SetDacAsWrittenLosesHighByte(address: byte, channel: byte)
    ensures SetDacTraceAsWritten(address, channel, 0x100) == SetDacTraceAsWritten(address, channel, 0)
    ensures I2cPayload(SetDacTraceAsWritten(address, channel, 0x100))[2..] == [0, 0]
  {
  }

  /** `POWER_SOURCE_SetDAC` with `power` held in 16 bits, as the
      `power >> 8` byte evidently intends. */
  function SetDacTrace(address: byte, channel: byte, power: word): (t: seq<BusEvent>)
    ensures |t| == 6 && t[0] == I2cStart && t[5] == I2cStop
    ensures |I2cPayload(t)| == 4
    ensures I2cPayload(t)[..2] == [address, DacCommandByte(channel)]
    ensures (I2cPayload(t)[2] as bv16 << 8) | I2cPayload(t)[3] as bv16 == power
  {
    var t := [I2cStart, I2cTransmit(address), I2cTransmit(DacCommandByte(channel)),
              I2cTransmit((0xFF & (power >> 8)) as byte),
              I2cTransmit((0xFF & power) as byte), I2cStop];
    I2cFrame(t);
    t
  }

  /** The corrected frame agrees with the code as written for every value
      that fits in a byte. */
  lemma SetDacAgreesBelow256(address: byte, channel: byte, power: word)
    requires power < 0x100
    ensures SetDacTrace(address, channel, power) == SetDacTraceAsWritten(address, channel, power)
  {
  }

  /** The bytes transmitted by a start/four bytes/stop frame. */
  lemma I2cFrame(t: seq<BusEvent>)
    requires |t| == 6 && t[0] == I2cStart && t[5] == I2cStop
    requires forall i :: 1 <= i < 5 ==> t[i].I2cTransmit?
    ensures I2cPayload(t) == [t[1].b, t[2].b, t[3].b, t[4].b]
  {
    assert I2cPayload(t[5..]) == [] by {
      assert t[5..][1..] == [];
    }
    assert t[4..][1..] == t[5..];
    assert I2cPayload(t[4..]) == [t[4].b];
    assert t[3..][1..] == t[4..];
    assert I2cPayload(t[3..]) == [t[3].b, t[4].b];
    assert t[2..][1..] == t[3..];
    assert I2cPayload(t[2..]) == [t[2].b, t[3].b, t[4].b];
    assert t[1..][1..] == t[2..];
    assert I2cPayload(t[1..]) == [t[1].b, t[2].b, t[3].b, t[4].b];
  }
}
