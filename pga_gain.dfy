/** The programmable-gain stage behind `OSCILLOSCOPE_SetPGAGain` in
    oscilloscope.c: a gain selector picks a MAX5400 digital-potentiometer
    setting, which is sent as one SPI byte while the channel's chip select
    is asserted. */
module PgaGain {
  import opened Bus
  import opened ChipSelect

  /** The amplification each selector stands for (the local `gain` of the
      handler, which is computed but never sent); selectors outside 1..7,
      including 0, mean unity gain. */
  ghost function GainFactor(gain: byte): (f: nat)
    ensures 1 <= f <= 32
  {
    match gain
    case 1 => 2
    case 2 => 4
    case 3 => 5
    case 4 => 8
    case 5 => 10
    case 6 => 16
    case 7 => 32
    case _ => 1
  }

  /** The MAX5400 wiper setting for a selector: the `max5400_resistor` table. */
  function GainResistor(gain: byte): (r: byte)
    ensures r == 255 <==> !(1 <= gain <= 7)
    ensures r >= 8
  {
    match gain
    case 1 => 128
    case 2 => 64
    case 3 => 51
    case 4 => 32
    case 5 => 26
    case 6 => 16
    case 7 => 8
    case _ => 255
  }

  /** Each table entry is 255 / gain rounded to the nearest integer, halves
      rounded up (127.50 -> 128, 63.75 -> 64, ..., 7.97 -> 8). */
  lemma GainResistorIsRoundedQuotient(gain: byte)
    ensures GainResistor(gain) as int == (2 * 255 + GainFactor(gain)) / (2 * GainFactor(gain))
  {
  }

  /** A higher selector within 1..7 means a smaller resistor setting, and
      the unity-gain default is larger than every other setting. */
  lemma GainResistorDecreasing(g: byte, h: byte)
    requires 1 <= g < h <= 7
    ensures GainResistor(h) < GainResistor(g) < GainResistor(0)
  {
  }

  /** The bus activity of `OSCILLOSCOPE_SetPGAGain` for the two bytes it reads:
      the SPI driver is closed at both ends, opened in the PGA configuration,
      and the only event between selecting and releasing the amplifier is
      the one byte exchange. */
  function PgaGainTrace(channel: byte, gain: byte): (t: seq<BusEvent>)
    ensures |t| == 6 && t[0] == SpiClose && t[5] == SpiClose
    ensures t[1] == SpiOpen(PgaConfig)
    ensures t[2] == SelectPins(SetCS(channel)) && t[4] == SelectPins(UnsetCS())
    ensures forall i :: 0 <= i < |t| && IsSpiExchange(t[i]) ==> i == 3
  {
    [SpiClose, SpiOpen(PgaConfig), SelectPins(SetCS(channel)),
     SpiExchangeByte(GainResistor(gain)), SelectPins(UnsetCS()), SpiClose]
  }

  /** Exactly one byte, the table's resistor setting, is exchanged over SPI;
      it is exchanged while `SetCS(channel)` is driven, and the handler ends
      with the chip select released and the SPI driver closed. */
  lemma PgaGainExchangesOneByte(channel: byte, gain: byte)
    ensures SpiPayload(PgaGainTrace(channel, gain)) == [SpiExchangeByte(GainResistor(gain))]
    ensures PgaGainTrace(channel, gain)[2..4] == [SelectPins(SetCS(channel)), SpiExchangeByte(GainResistor(gain))]
    ensures PgaGainTrace(channel, gain)[4..] == [SelectPins(UnsetCS()), SpiClose]
  {
    var t := PgaGainTrace(channel, gain);
    var x := SpiExchangeByte(GainResistor(gain));
    assert t[..3] + [x] + t[4..] == t;
    SpiPayloadNone(t[..3]);
    SpiPayloadNone(t[4..]);
    assert SpiPayload([x]) == [x] by {
      assert [x][1..] == [];
    }
    SpiPayloadAppend(t[..3], [x]);
    SpiPayloadAppend(t[..3] + [x], t[4..]);
  }
}
