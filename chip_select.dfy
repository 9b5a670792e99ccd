/** `SetCS` / `UnsetCS` of oscilloscope.c: the three chip-select lines drive
    the address inputs of an 8-way analog multiplexer. Channels 1..6 select
    multiplexer outputs 0..5; every other channel selects output 7, which is
    not connected to any device. */
module ChipSelect {
  import opened Bus

  function Bit(l: PinLevel): nat
  {
    if l == High then 1 else 0
  }

  /** The multiplexer address the pins encode, CS_CH1 being the least
      significant digit and High meaning 1. */
  function MuxAddress(p: CsPins): (a: nat)
    ensures a < 8
  {
    Bit(p.cs1) + 2 * Bit(p.cs2) + 4 * Bit(p.cs3)
  }

  function Level(d: nat): PinLevel
  {
    if d % 2 == 1 then High else Low
  }

  /** The pin levels that present address `a` to the multiplexer. */
  function PinsForAddress(a: nat): (p: CsPins)
    requires a < 8
    ensures MuxAddress(p) == a
  {
    CsPins(Level(a), Level(a / 2), Level(a / 4))
  }

  /** The address determines the pins: the encoding is a bijection. */
  lemma PinsDetermined(p: CsPins)
    ensures PinsForAddress(MuxAddress(p)) == p
  {
  }

  /** The `switch` of `SetCS`. */
  function SetCS(channel: byte): (pins: CsPins)
    ensures 1 <= channel <= 6 ==> MuxAddress(pins) == channel as int - 1
    ensures !(1 <= channel <= 6) ==> MuxAddress(pins) == 7
  {
    match channel
    case 1 => CsPins(Low, Low, Low)
    case 2 => CsPins(High, Low, Low)
    case 3 => CsPins(Low, High, Low)
    case 4 => CsPins(High, High, Low)
    case 5 => CsPins(Low, Low, High)
    case 6 => CsPins(High, Low, High)
    case _ => CsPins(High, High, High)
  }

  /** `UnsetCS` selects the unconnected output 7 through `SetCS(7)`. */
  function UnsetCS(): (pins: CsPins)
    ensures MuxAddress(pins) == 7
    ensures pins == CsPins(High, High, High)
  {
    SetCS(7)
  }

  /** `SetCS(c)` drives the binary digits of `c - 1` for 1 <= c <= 6 and of 7
      for every other channel, including 0 and 7. */
  lemma SetCSIsBinary(c: byte)
    ensures SetCS(c) == PinsForAddress(if 1 <= c <= 6 then c as int - 1 else 7)
  {
    PinsDetermined(SetCS(c));
  }

  /** Distinct connected channels select distinct pin patterns, and no
      connected channel looks like `UnsetCS`. */
  lemma SetCSInjective(c: byte, d: byte)
    requires 1 <= c <= 6 && 1 <= d <= 6
    ensures SetCS(c) == SetCS(d) <==> c == d
    ensures SetCS(c) != UnsetCS()
  {
  }
}
